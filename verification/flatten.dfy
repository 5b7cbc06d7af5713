/** `Experiment.get_experiment_details` and its three private helpers: the
    ledger flattened into one record per job, each carrying the solver,
    problem and experiment objects that place it. */
module Flatten {
  import opened Wrappers
  import opened Jobs
  import opened Ledger
  import opened Details

  /** The context handed to `get_job_details` for problem `pi` of solver `si`,
      at iteration 0: it names that solver entry and that problem group, and
      with any iteration below the group's id count it places a record. */
  function Frame(exp: Experiment, si: nat, pi: nat): (r: Context)
    requires si < |exp.ledger| && pi < |exp.ledger[si].problems|
    ensures r.experiment.solverListIndex == si && r.experiment.problemListIndex == pi
    ensures r.experiment.iteration == 0
  {
    var g := exp.ledger[si];
    Context(PlaceholderProblem, SolverInfo(g.solver, g.inputParams),
            ExperimentInfo(exp.experimentId, exp.date, g.problems[pi].numIterations, 0,
                           |exp.ledger|, si, |g.problems|, pi))
  }

  /** Every iteration of the frame is a context the ledger places: the
      solver entry, the problem slot and an iteration the group ran. */
  lemma FramePlaced(exp: Experiment, si: nat, pi: nat)
    requires si < |exp.ledger| && pi < |exp.ledger[si].problems|
    ensures forall it: nat :: it < |exp.ledger[si].problems[pi].iterations| ==> PlacedContext(exp, At(Frame(exp, si, pi), it))
  {
  }

  /** The same context with the `iteration` entry replaced. */
  function At(ctx: Context, iteration: nat): Context
  {
    ctx.(experiment := ctx.experiment.(iteration := iteration))
  }

  /** A job whose record is kept: the lookup succeeds and `get_job_details`
      does not raise on it. */
  predicate Reportable(id: JobId, workspace: Workspace, parse: JsonParser)
  {
    workspace(id).Some? && !DetailsRaise(workspace(id).value, parse)
  }

  /** The ids whose record is kept, in order. */
  function Reported(ids: seq<JobId>, workspace: Workspace, parse: JsonParser): (r: seq<JobId>)
    ensures |r| <= |ids|
  {
    if |ids| == 0 then []
    else if Reportable(ids[0], workspace, parse) then [ids[0]] + Reported(ids[1..], workspace, parse)
    else Reported(ids[1..], workspace, parse)
  }

  lemma {:induction false} ReportedAppend(a: seq<JobId>, b: seq<JobId>, workspace: Workspace, parse: JsonParser)
    ensures Reported(a + b, workspace, parse) == Reported(a, workspace, parse) + Reported(b, workspace, parse)
  {
    if |a| > 0 {
      assert (a + b)[1..] == a[1..] + b;
      ReportedAppend(a[1..], b, workspace, parse);
    } else {
      assert a + b == b;
    }
  }

  /** An id is reported exactly when it is among the ids and reportable. */
  lemma {:induction false} ReportedMembership(ids: seq<JobId>, x: JobId, workspace: Workspace, parse: JsonParser)
    ensures x in Reported(ids, workspace, parse) <==> x in ids && Reportable(x, workspace, parse)
  {
    if |ids| > 0 {
      ReportedMembership(ids[1..], x, workspace, parse);
      assert ids == [ids[0]] + ids[1..];
    }
  }

  /** Only ids that cannot be looked up or described are left out: the
      reported ids are all of them exactly when each is reportable. */
  lemma {:induction false} ReportedAll(ids: seq<JobId>, workspace: Workspace, parse: JsonParser)
    ensures Reported(ids, workspace, parse) == ids <==>
      forall i :: 0 <= i < |ids| ==> Reportable(ids[i], workspace, parse)
  {
    if |ids| > 0 {
      ReportedAll(ids[1..], workspace, parse);
      if !Reportable(ids[0], workspace, parse) {
        assert |Reported(ids, workspace, parse)| < |ids|;
      } else {
        assert forall i :: 1 <= i < |ids| ==> ids[1..][i - 1] == ids[i];
      }
    }
  }

  /** `d` is the record `get_job_details` builds for `id` in `d`'s own context. */
  predicate Describes(d: JobDetails, id: JobId, workspace: Workspace, parse: JsonParser)
  {
    workspace(id).Some? && GetJobDetails(workspace(id).value, d.context, parse) == Ok(d)
  }

  /** Record `i` describes id `i`, position by position. */
  predicate AllDescribe(records: seq<JobDetails>, ids: seq<JobId>, workspace: Workspace, parse: JsonParser)
  {
    |records| == |ids| && forall i :: 0 <= i < |records| ==> Describes(records[i], ids[i], workspace, parse)
  }

  lemma AllDescribeAppend(a: seq<JobDetails>, ia: seq<JobId>, b: seq<JobDetails>, ib: seq<JobId>,
                          workspace: Workspace, parse: JsonParser)
    requires AllDescribe(a, ia, workspace, parse) && AllDescribe(b, ib, workspace, parse)
    ensures AllDescribe(a + b, ia + ib, workspace, parse)
  {
    forall i | 0 <= i < |a + b|
      ensures Describes((a + b)[i], (ia + ib)[i], workspace, parse)
    {
      if i >= |a| {
        assert (a + b)[i] == b[i - |a|] && (ia + ib)[i] == ib[i - |a|];
      }
    }
  }

  /** What one id contributes: its record, or nothing when the lookup or
      `get_job_details` raises. */
  function Fetch(id: JobId, ctx: Context, workspace: Workspace, parse: JsonParser): (r: seq<JobDetails>)
    ensures |r| <= 1
    ensures |r| == 1 <==> Reportable(id, workspace, parse)
    ensures |r| == 1 ==> Describes(r[0], id, workspace, parse) && r[0].context == ctx
  {
    match workspace(id)
    case None => []
    case Some(job) =>
      match GetJobDetails(job, ctx, parse)
      case Err(_) => []
      case Ok(d) => [d]
  }

  /** `__get_job_details_in_submit_iteration_list`: one record per reportable
      id, in order. The `iteration` entry starts at `it` and moves on only
      when a record was appended, so it numbers the kept records, not the ids. */
  function IterationRecords(ids: seq<JobId>, ctx: Context, it: nat, workspace: Workspace, parse: JsonParser)
    : (r: seq<JobDetails>)
    ensures |r| == |Reported(ids, workspace, parse)|
    ensures forall i :: 0 <= i < |r| ==> r[i].context == At(ctx, it + i)
  {
    if |ids| == 0 then []
    else
      var got := Fetch(ids[0], At(ctx, it), workspace, parse);
      got + IterationRecords(ids[1..], ctx, it + |got|, workspace, parse)
  }

  /** Record `i` of a problem is the record of its `i`-th reportable id. */
  lemma {:induction false} IterationDescribes(ids: seq<JobId>, ctx: Context, it: nat, workspace: Workspace, parse: JsonParser)
    ensures AllDescribe(IterationRecords(ids, ctx, it, workspace, parse), Reported(ids, workspace, parse), workspace, parse)
  {
    if |ids| > 0 {
      IterationDescribes(ids[1..], ctx, it + |Fetch(ids[0], At(ctx, it), workspace, parse)|, workspace, parse);
      IterationStep(ids, ctx, it, workspace, parse);
    }
  }

  /** One id more in front: its record, if any, goes in front too. */
  lemma IterationStep(ids: seq<JobId>, ctx: Context, it: nat, workspace: Workspace, parse: JsonParser)
    requires |ids| > 0
    requires AllDescribe(IterationRecords(ids[1..], ctx, it + |Fetch(ids[0], At(ctx, it), workspace, parse)|, workspace, parse),
                         Reported(ids[1..], workspace, parse), workspace, parse)
    ensures AllDescribe(IterationRecords(ids, ctx, it, workspace, parse), Reported(ids, workspace, parse), workspace, parse)
  {
    var got := Fetch(ids[0], At(ctx, it), workspace, parse);
    var head := if |got| == 1 then [ids[0]] else [];
    IterationUnfold(ids, ctx, it, workspace, parse);
    ReportedUnfold(ids, workspace, parse);
    FetchDescribes(ids[0], At(ctx, it), workspace, parse);
    AllDescribeAppend(got, head, IterationRecords(ids[1..], ctx, it + |Fetch(ids[0], At(ctx, it), workspace, parse)|, workspace, parse),
                      Reported(ids[1..], workspace, parse), workspace, parse);
  }

  lemma IterationUnfold(ids: seq<JobId>, ctx: Context, it: nat, workspace: Workspace, parse: JsonParser)
    requires |ids| > 0
    ensures IterationRecords(ids, ctx, it, workspace, parse)
         == Fetch(ids[0], At(ctx, it), workspace, parse)
          + IterationRecords(ids[1..], ctx, it + |Fetch(ids[0], At(ctx, it), workspace, parse)|, workspace, parse)
  {
  }

  lemma ReportedUnfold(ids: seq<JobId>, workspace: Workspace, parse: JsonParser)
    requires |ids| > 0
    ensures Reported(ids, workspace, parse)
         == (if Reportable(ids[0], workspace, parse) then [ids[0]] else []) + Reported(ids[1..], workspace, parse)
  {
  }

  /** The record one id contributes, if any, describes that id. */
  lemma FetchDescribes(id: JobId, ctx: Context, workspace: Workspace, parse: JsonParser)
    ensures var got := Fetch(id, ctx, workspace, parse);
      AllDescribe(got, if |got| == 1 then [id] else [], workspace, parse)
  {
  }

  /** Within one problem the `iteration` entries count up, so the records
      are in order. */
  lemma IterationOrdered(ids: seq<JobId>, ctx: Context, it: nat, workspace: Workspace, parse: JsonParser)
    ensures Ordered(IterationRecords(ids, ctx, it, workspace, parse))
  {
  }

  /** Where a record sits: its experiment object names the experiment, a
      solver of the ledger and one of that solver's problems, and its solver
      object is that solver's entry. */
  predicate WellPlaced(exp: Experiment, d: JobDetails)
  {
    PlacedContext(exp, d.context)
  }

  predicate PlacedContext(exp: Experiment, ctx: Context)
  {
    var e := ctx.experiment;
    && ctx.problem == PlaceholderProblem
    && e.experimentId == exp.experimentId
    && e.date == exp.date
    && e.solverListLength == |exp.ledger|
    && e.solverListIndex < |exp.ledger|
    && var g := exp.ledger[e.solverListIndex];
       && ctx.solver == SolverInfo(g.solver, g.inputParams)
       && e.problemListLength == |g.problems|
       && e.problemListIndex < |g.problems|
       && e.numIterations == g.problems[e.problemListIndex].numIterations
       && e.iteration < |g.problems[e.problemListIndex].iterations|
  }

  /** `x` comes before `y` in (solver index, problem index, iteration) order. */
  predicate Before(x: JobDetails, y: JobDetails)
  {
    var a := x.context.experiment;
    var b := y.context.experiment;
    || a.solverListIndex < b.solverListIndex
    || (a.solverListIndex == b.solverListIndex && a.problemListIndex < b.problemListIndex)
    || (a.solverListIndex == b.solverListIndex && a.problemListIndex == b.problemListIndex && a.iteration < b.iteration)
  }

  /** Records in strictly increasing (solver, problem, iteration) order. */
  predicate Ordered(records: seq<JobDetails>)
  {
    forall i, j :: 0 <= i < j < |records| ==> Before(records[i], records[j])
  }

  lemma OrderedAppend(a: seq<JobDetails>, b: seq<JobDetails>)
    requires Ordered(a) && Ordered(b)
    requires forall x, y :: x in a && y in b ==> Before(x, y)
    ensures Ordered(a + b)
  {
    forall i, j | 0 <= i < j < |a + b|
      ensures Before((a + b)[i], (a + b)[j])
    {
      if j < |a| {
        assert (a + b)[i] == a[i] && (a + b)[j] == a[j];
      } else if i >= |a| {
        assert (a + b)[i] == b[i - |a|] && (a + b)[j] == b[j - |a|];
      } else {
        assert (a + b)[i] in a && (a + b)[j] in b;
      }
    }
  }

  /** `__get_problem_objects_details` from problem `pi` on. The problem index
      moves on after every problem, kept records or not. */
  function ProblemRecords(exp: Experiment, si: nat, pi: nat, workspace: Workspace, parse: JsonParser)
    : (r: seq<JobDetails>)
    requires si < |exp.ledger| && pi <= |exp.ledger[si].problems|
    ensures AllDescribe(r, Reported(GroupIds(exp.ledger[si].problems[pi..]), workspace, parse), workspace, parse)
    ensures forall d :: d in r ==> WellPlaced(exp, d) && d.context.experiment.solverListIndex == si
    ensures forall d :: d in r ==> pi <= d.context.experiment.problemListIndex
    ensures Ordered(r)
    decreases |exp.ledger[si].problems| - pi
  {
    var groups := exp.ledger[si].problems;
    if pi == |groups| then
      assert groups[pi..] == [];
      []
    else
      var here := IterationRecords(groups[pi].iterations, Frame(exp, si, pi), 0, workspace, parse);
      FramePlaced(exp, si, pi);
      IterationOrdered(groups[pi].iterations, Frame(exp, si, pi), 0, workspace, parse);
      IterationDescribes(groups[pi].iterations, Frame(exp, si, pi), 0, workspace, parse);
      var rest := ProblemRecords(exp, si, pi + 1, workspace, parse);
      assert groups[pi..][1..] == groups[pi + 1..];
      ReportedAppend(groups[pi].iterations, GroupIds(groups[pi + 1..]), workspace, parse);
      AllDescribeAppend(here, Reported(groups[pi].iterations, workspace, parse),
                        rest, Reported(GroupIds(groups[pi + 1..]), workspace, parse), workspace, parse);
      OrderedAppend(here, rest);
      here + rest
  }

  /** Whether some solver from `si` on has an empty problem list. */
  predicate EmptyGroupFrom(exp: Experiment, si: nat)
  {
    exists k :: si <= k < |exp.ledger| && exp.ledger[k].problems == []
  }

  /** `__get_solver_objects_details` from solver `si` on. A solver with no
      problems raises "Empty problem list", which nothing catches. */
  function SolverRecords(exp: Experiment, si: nat, workspace: Workspace, parse: JsonParser)
    : (r: Result<seq<JobDetails>>)
    requires si <= |exp.ledger|
    ensures r.Err? <==> EmptyGroupFrom(exp, si)
    ensures r.Err? ==> r.fault == EmptyProblemList
    ensures r.Ok? ==> AllDescribe(r.value, Reported(LedgerIds(exp.ledger[si..]), workspace, parse), workspace, parse)
    ensures r.Ok? ==> forall d :: d in r.value ==> WellPlaced(exp, d)
    ensures r.Ok? ==> forall d :: d in r.value ==> si <= d.context.experiment.solverListIndex
    ensures r.Ok? ==> Ordered(r.value)
    decreases |exp.ledger| - si
  {
    if si == |exp.ledger| then
      assert exp.ledger[si..] == [];
      Ok([])
    else if exp.ledger[si].problems == [] then
      Err(EmptyProblemList)
    else
      var rest :- SolverRecords(exp, si + 1, workspace, parse);
      var here := ProblemRecords(exp, si, 0, workspace, parse);
      assert exp.ledger[si].problems[0..] == exp.ledger[si].problems;
      assert exp.ledger[si..][1..] == exp.ledger[si + 1..];
      ReportedAppend(GroupIds(exp.ledger[si].problems), LedgerIds(exp.ledger[si + 1..]), workspace, parse);
      AllDescribeAppend(here, Reported(GroupIds(exp.ledger[si].problems), workspace, parse),
                        rest, Reported(LedgerIds(exp.ledger[si + 1..]), workspace, parse), workspace, parse);
      OrderedAppend(here, rest);
      Ok(here + rest)
  }

  /** `get_experiment_details`: "Empty problem list" when the ledger is empty
      (nothing was submitted, or every solver was dropped) or some solver has
      no problems; otherwise one record per reportable ledger id, in ledger
      order, each placed by its solver and problem. */
  function GetExperimentDetails(exp: Experiment, workspace: Workspace, parse: JsonParser)
    : (r: Result<seq<JobDetails>>)
    ensures r.Err? <==> exp.ledger == [] || EmptyGroupFrom(exp, 0)
    ensures r.Err? ==> r.fault == EmptyProblemList
    ensures r.Ok? ==> AllDescribe(r.value, Reported(LedgerIds(exp.ledger), workspace, parse), workspace, parse)
    ensures r.Ok? ==> forall d :: d in r.value ==> WellPlaced(exp, d)
    ensures r.Ok? ==> Ordered(r.value)
  {
    if |exp.ledger| == 0 then Err(EmptyProblemList)
    else
      assert exp.ledger[0..] == exp.ledger;
      SolverRecords(exp, 0, workspace, parse)
  }

  /** Where the records of problem `pi` of solver `si` start in the flattened
      list: after the reported ids of every earlier solver entry and of every
      earlier group of this one. */
  function Offset(exp: Experiment, si: nat, pi: nat, workspace: Workspace, parse: JsonParser): nat
    requires si < |exp.ledger| && pi <= |exp.ledger[si].problems|
  {
    |Reported(LedgerIds(exp.ledger[..si]), workspace, parse)|
      + |Reported(GroupIds(exp.ledger[si].problems[..pi]), workspace, parse)|
  }

  /** The contexts the records carry, in order. */
  function Contexts(r: seq<JobDetails>): (cs: seq<Context>)
    ensures |cs| == |r|
  {
    if |r| == 0 then [] else [r[0].context] + Contexts(r[1..])
  }

  lemma {:induction false} ContextsAppend(a: seq<JobDetails>, b: seq<JobDetails>)
    ensures Contexts(a + b) == Contexts(a) + Contexts(b)
  {
    if |a| == 0 {
      assert a + b == b;
    } else {
      assert (a + b)[1..] == a[1..] + b;
      ContextsAppend(a[1..], b);
    }
  }

  lemma {:induction false} ContextsIndex(r: seq<JobDetails>, k: nat)
    requires k < |r|
    ensures Contexts(r)[k] == r[k].context
  {
    if k > 0 {
      ContextsIndex(r[1..], k - 1);
    }
  }

  /** Entry `k` of `cs` exists and is `ctx`. */
  predicate Slot(cs: seq<Context>, k: nat, ctx: Context)
  {
    k < |cs| && cs[k] == ctx
  }

  lemma SlotMove(cs: seq<Context>, k: nat, k': nat, ctx: Context)
    requires Slot(cs, k, ctx) && k == k'
    ensures Slot(cs, k', ctx)
  {
  }

  lemma SlotBefore(a: seq<Context>, b: seq<Context>, k: nat, k': nat, ctx: Context)
    requires Slot(a, k, ctx)
    requires k' == k
    ensures Slot(a + b, k', ctx)
  {
    assert (a + b)[k] == a[k];
  }

  lemma SlotAfter(a: seq<Context>, b: seq<Context>, k: nat, k': nat, ctx: Context)
    requires Slot(b, k, ctx)
    requires k' == |a| + k
    ensures Slot(a + b, k', ctx)
  {
    assert (a + b)[k'] == b[k];
  }

  /** Reference placement, read off the ledger alone: `count` records of one
      group, numbered from 0 in the group's frame. */
  function IterationContexts(ctx: Context, count: nat): (cs: seq<Context>)
    ensures |cs| == count
  {
    seq(count, i requires 0 <= i < count => At(ctx, i))
  }

  /** Reference placement of the groups of solver `si` from `pi` on: each
      group's frame, once per reported id of the group. */
  function ProblemContexts(exp: Experiment, si: nat, pi: nat, workspace: Workspace, parse: JsonParser): (cs: seq<Context>)
    requires si < |exp.ledger| && pi <= |exp.ledger[si].problems|
    decreases |exp.ledger[si].problems| - pi
  {
    var groups := exp.ledger[si].problems;
    if pi == |groups| then []
    else
      IterationContexts(Frame(exp, si, pi), |Reported(groups[pi].iterations, workspace, parse)|)
        + ProblemContexts(exp, si, pi + 1, workspace, parse)
  }

  /** Reference placement of the solvers from `s0` on. */
  function LedgerContexts(exp: Experiment, s0: nat, workspace: Workspace, parse: JsonParser): (cs: seq<Context>)
    requires s0 <= |exp.ledger|
    decreases |exp.ledger| - s0
  {
    if s0 == |exp.ledger| then []
    else ProblemContexts(exp, s0, 0, workspace, parse) + LedgerContexts(exp, s0 + 1, workspace, parse)
  }

  /** One group's records carry the reference contexts. */
  lemma IterationContextsAgree(ids: seq<JobId>, ctx: Context, workspace: Workspace, parse: JsonParser)
    ensures Contexts(IterationRecords(ids, ctx, 0, workspace, parse))
         == IterationContexts(ctx, |Reported(ids, workspace, parse)|)
  {
    var r := IterationRecords(ids, ctx, 0, workspace, parse);
    forall k | 0 <= k < |r|
      ensures Contexts(r)[k] == At(ctx, k)
    {
      ContextsIndex(r, k);
    }
  }

  lemma ProblemRecordsUnfold(exp: Experiment, si: nat, pi: nat, workspace: Workspace, parse: JsonParser)
    requires si < |exp.ledger| && pi < |exp.ledger[si].problems|
    ensures Contexts(ProblemRecords(exp, si, pi, workspace, parse))
         == Contexts(IterationRecords(exp.ledger[si].problems[pi].iterations, Frame(exp, si, pi), 0, workspace, parse))
          + Contexts(ProblemRecords(exp, si, pi + 1, workspace, parse))
  {
    ContextsAppend(IterationRecords(exp.ledger[si].problems[pi].iterations, Frame(exp, si, pi), 0, workspace, parse),
                   ProblemRecords(exp, si, pi + 1, workspace, parse));
  }

  /** The records of one solver carry exactly the reference contexts. */
  lemma {:induction false} ProblemContextsAgree(exp: Experiment, si: nat, pi: nat, workspace: Workspace, parse: JsonParser)
    requires si < |exp.ledger| && pi <= |exp.ledger[si].problems|
    ensures Contexts(ProblemRecords(exp, si, pi, workspace, parse)) == ProblemContexts(exp, si, pi, workspace, parse)
    decreases |exp.ledger[si].problems| - pi
  {
    if pi < |exp.ledger[si].problems| {
      ProblemContextsAgree(exp, si, pi + 1, workspace, parse);
      ProblemRecordsUnfold(exp, si, pi, workspace, parse);
      IterationContextsAgree(exp.ledger[si].problems[pi].iterations, Frame(exp, si, pi), workspace, parse);
    }
  }

  lemma SolverRecordsUnfold(exp: Experiment, s0: nat, workspace: Workspace, parse: JsonParser)
    requires s0 < |exp.ledger|
    requires SolverRecords(exp, s0, workspace, parse).Ok?
    ensures SolverRecords(exp, s0 + 1, workspace, parse).Ok?
    ensures Contexts(SolverRecords(exp, s0, workspace, parse).value)
         == Contexts(ProblemRecords(exp, s0, 0, workspace, parse)) + Contexts(SolverRecords(exp, s0 + 1, workspace, parse).value)
  {
    ContextsAppend(ProblemRecords(exp, s0, 0, workspace, parse), SolverRecords(exp, s0 + 1, workspace, parse).value);
  }

  /** When the walk does not raise, the records carry exactly the reference
      contexts, solver by solver and group by group. */
  lemma {:induction false} LedgerContextsAgree(exp: Experiment, s0: nat, workspace: Workspace, parse: JsonParser)
    requires s0 <= |exp.ledger|
    requires SolverRecords(exp, s0, workspace, parse).Ok?
    ensures Contexts(SolverRecords(exp, s0, workspace, parse).value) == LedgerContexts(exp, s0, workspace, parse)
    decreases |exp.ledger| - s0
  {
    if s0 < |exp.ledger| {
      SolverRecordsUnfold(exp, s0, workspace, parse);
      LedgerContextsAgree(exp, s0 + 1, workspace, parse);
      ProblemContextsAgree(exp, s0, 0, workspace, parse);
    }
  }

  /** How many records groups `pi` .. `pj - 1` of solver `si` contribute. */
  function GroupSpan(exp: Experiment, si: nat, pi: nat, pj: nat, workspace: Workspace, parse: JsonParser): nat
    requires si < |exp.ledger| && pi <= pj <= |exp.ledger[si].problems|
  {
    |Reported(GroupIds(exp.ledger[si].problems[pi..pj]), workspace, parse)|
  }

  /** How many records solvers `s0` .. `si - 1` contribute. */
  function SolverSpan(exp: Experiment, s0: nat, si: nat, workspace: Workspace, parse: JsonParser): nat
    requires s0 <= si <= |exp.ledger|
  {
    |Reported(LedgerIds(exp.ledger[s0..si]), workspace, parse)|
  }

  lemma GroupSpanStep(exp: Experiment, si: nat, pi: nat, p1: nat, pj: nat, workspace: Workspace, parse: JsonParser)
    requires si < |exp.ledger| && p1 == pi + 1 && p1 <= pj <= |exp.ledger[si].problems|
    ensures GroupSpan(exp, si, pi, pj, workspace, parse)
         == |Reported(exp.ledger[si].problems[pi].iterations, workspace, parse)| + GroupSpan(exp, si, p1, pj, workspace, parse)
  {
    var groups := exp.ledger[si].problems;
    assert groups[pi..pj][1..] == groups[p1..pj];
    ReportedAppend(groups[pi].iterations, GroupIds(groups[p1..pj]), workspace, parse);
  }

  /** Within one solver, from group `pi` on: the `i`-th context of group `pj`
      follows the reported ids of groups `pi` .. `pj - 1`. */
  lemma {:induction false} ProblemPlacement(exp: Experiment, si: nat, pi: nat, pj: nat, i: nat,
                                            workspace: Workspace, parse: JsonParser)
    requires si < |exp.ledger| && pi <= pj < |exp.ledger[si].problems|
    requires i < |Reported(exp.ledger[si].problems[pj].iterations, workspace, parse)|
    ensures Slot(ProblemContexts(exp, si, pi, workspace, parse), GroupSpan(exp, si, pi, pj, workspace, parse) + i,
                 At(Frame(exp, si, pj), i))
    decreases pj - pi
  {
    var p1 := pi + 1;
    var here := IterationContexts(Frame(exp, si, pi), |Reported(exp.ledger[si].problems[pi].iterations, workspace, parse)|);
    var rest := ProblemContexts(exp, si, p1, workspace, parse);
    if pj == pi {
      assert exp.ledger[si].problems[pi..pj] == [];
      SlotBefore(here, rest, i, GroupSpan(exp, si, pi, pj, workspace, parse) + i, At(Frame(exp, si, pj), i));
    } else {
      ProblemPlacement(exp, si, p1, pj, i, workspace, parse);
      GroupSpanStep(exp, si, pi, p1, pj, workspace, parse);
      SlotAfter(here, rest, GroupSpan(exp, si, p1, pj, workspace, parse) + i,
                GroupSpan(exp, si, pi, pj, workspace, parse) + i, At(Frame(exp, si, pj), i));
    }
  }

  /** How many contexts one solver's groups contribute. */
  lemma {:induction false} ProblemContextsCount(exp: Experiment, si: nat, pi: nat, workspace: Workspace, parse: JsonParser)
    requires si < |exp.ledger| && pi <= |exp.ledger[si].problems|
    ensures |ProblemContexts(exp, si, pi, workspace, parse)| == |Reported(GroupIds(exp.ledger[si].problems[pi..]), workspace, parse)|
    decreases |exp.ledger[si].problems| - pi
  {
    var groups := exp.ledger[si].problems;
    if pi < |groups| {
      ProblemContextsCount(exp, si, pi + 1, workspace, parse);
      assert groups[pi..][1..] == groups[pi + 1..];
      ReportedAppend(groups[pi].iterations, GroupIds(groups[pi + 1..]), workspace, parse);
    } else {
      assert groups[pi..] == [];
    }
  }

  lemma SolverSpanStep(exp: Experiment, s0: nat, s1: nat, si: nat, workspace: Workspace, parse: JsonParser)
    requires s1 == s0 + 1 && s1 <= si <= |exp.ledger|
    ensures SolverSpan(exp, s0, si, workspace, parse)
         == |ProblemContexts(exp, s0, 0, workspace, parse)| + SolverSpan(exp, s1, si, workspace, parse)
  {
    assert exp.ledger[s0..si][1..] == exp.ledger[s1..si];
    assert exp.ledger[s0].problems[0..] == exp.ledger[s0].problems;
    ProblemContextsCount(exp, s0, 0, workspace, parse);
    ReportedAppend(GroupIds(exp.ledger[s0].problems), LedgerIds(exp.ledger[s1..si]), workspace, parse);
  }

  /** From solver `s0` on: the `i`-th context of group `pi` of solver `si`
      follows the reported ids of solvers `s0` .. `si - 1` and of the earlier
      groups of `si`. */
  lemma {:induction false} SolverPlacement(exp: Experiment, s0: nat, si: nat, pi: nat, i: nat,
                                           workspace: Workspace, parse: JsonParser)
    requires s0 <= si < |exp.ledger| && pi < |exp.ledger[si].problems|
    requires i < |Reported(exp.ledger[si].problems[pi].iterations, workspace, parse)|
    ensures Slot(LedgerContexts(exp, s0, workspace, parse),
                 SolverSpan(exp, s0, si, workspace, parse) + GroupSpan(exp, si, 0, pi, workspace, parse) + i,
                 At(Frame(exp, si, pi), i))
    decreases si - s0
  {
    if si == s0 {
      OwnSolverPlacement(exp, si, pi, i, workspace, parse);
    } else {
      var s1 := s0 + 1;
      SolverPlacement(exp, s1, si, pi, i, workspace, parse);
      LaterSolverPlacement(exp, s0, s1, si, pi, i, workspace, parse);
    }
  }

  lemma OwnSolverPlacement(exp: Experiment, si: nat, pi: nat, i: nat, workspace: Workspace, parse: JsonParser)
    requires si < |exp.ledger| && pi < |exp.ledger[si].problems|
    requires i < |Reported(exp.ledger[si].problems[pi].iterations, workspace, parse)|
    ensures Slot(LedgerContexts(exp, si, workspace, parse),
                 SolverSpan(exp, si, si, workspace, parse) + GroupSpan(exp, si, 0, pi, workspace, parse) + i,
                 At(Frame(exp, si, pi), i))
  {
    assert exp.ledger[si..si] == [];
    ProblemPlacement(exp, si, 0, pi, i, workspace, parse);
    SlotBefore(ProblemContexts(exp, si, 0, workspace, parse), LedgerContexts(exp, si + 1, workspace, parse),
               GroupSpan(exp, si, 0, pi, workspace, parse) + i,
               SolverSpan(exp, si, si, workspace, parse) + GroupSpan(exp, si, 0, pi, workspace, parse) + i,
               At(Frame(exp, si, pi), i));
  }

  lemma LaterSolverPlacement(exp: Experiment, s0: nat, s1: nat, si: nat, pi: nat, i: nat,
                             workspace: Workspace, parse: JsonParser)
    requires s1 == s0 + 1 && s1 <= si < |exp.ledger| && pi < |exp.ledger[si].problems|
    requires Slot(LedgerContexts(exp, s1, workspace, parse),
                  SolverSpan(exp, s1, si, workspace, parse) + GroupSpan(exp, si, 0, pi, workspace, parse) + i,
                  At(Frame(exp, si, pi), i))
    ensures Slot(LedgerContexts(exp, s0, workspace, parse),
                 SolverSpan(exp, s0, si, workspace, parse) + GroupSpan(exp, si, 0, pi, workspace, parse) + i,
                 At(Frame(exp, si, pi), i))
  {
    SolverSpanStep(exp, s0, s1, si, workspace, parse);
    SlotAfter(ProblemContexts(exp, s0, 0, workspace, parse), LedgerContexts(exp, s1, workspace, parse),
              SolverSpan(exp, s1, si, workspace, parse) + GroupSpan(exp, si, 0, pi, workspace, parse) + i,
              SolverSpan(exp, s0, si, workspace, parse) + GroupSpan(exp, si, 0, pi, workspace, parse) + i,
              At(Frame(exp, si, pi), i));
  }

  lemma GroupIdsSplit(groups: seq<ProblemGroup>, pi: nat)
    requires pi < |groups|
    ensures GroupIds(groups) == GroupIds(groups[..pi]) + groups[pi].iterations + GroupIds(groups[pi + 1..])
  {
    assert groups == groups[..pi] + groups[pi..];
    GroupIdsAppend(groups[..pi], groups[pi..]);
    assert groups[pi..][1..] == groups[pi + 1..];
  }

  lemma LedgerIdsSplit(ledger: seq<SolverGroup>, si: nat)
    requires si < |ledger|
    ensures LedgerIds(ledger) == LedgerIds(ledger[..si]) + GroupIds(ledger[si].problems) + LedgerIds(ledger[si + 1..])
  {
    assert ledger == ledger[..si] + ledger[si..];
    LedgerIdsAppend(ledger[..si], ledger[si..]);
    assert ledger[si..][1..] == ledger[si + 1..];
  }

  lemma IndexMiddle<T>(before: seq<T>, mine: seq<T>, after: seq<T>, x: nat)
    requires x < |mine|
    ensures |before| + x < |before + mine + after| && (before + mine + after)[|before| + x] == mine[x]
  {
    assert (before + mine)[|before| + x] == mine[x];
  }

  /** Entry `x` of the reported ids of solver `si` in the whole ledger. */
  lemma LedgerIdAt(ledger: seq<SolverGroup>, si: nat, x: nat, k: nat, workspace: Workspace, parse: JsonParser)
    requires si < |ledger| && x < |Reported(GroupIds(ledger[si].problems), workspace, parse)|
    requires k == |Reported(LedgerIds(ledger[..si]), workspace, parse)| + x
    ensures k < |Reported(LedgerIds(ledger), workspace, parse)|
    ensures Reported(LedgerIds(ledger), workspace, parse)[k] == Reported(GroupIds(ledger[si].problems), workspace, parse)[x]
  {
    var a, b, c := LedgerIds(ledger[..si]), GroupIds(ledger[si].problems), LedgerIds(ledger[si + 1..]);
    LedgerIdsSplit(ledger, si);
    ReportedAppend(a + b, c, workspace, parse);
    ReportedAppend(a, b, workspace, parse);
    IndexMiddle(Reported(a, workspace, parse), Reported(b, workspace, parse), Reported(c, workspace, parse), x);
  }

  /** Entry `i` of the reported ids of group `pi` among its solver's ids. */
  lemma GroupIdAt(groups: seq<ProblemGroup>, pi: nat, i: nat, x: nat, workspace: Workspace, parse: JsonParser)
    requires pi < |groups| && i < |Reported(groups[pi].iterations, workspace, parse)|
    requires x == |Reported(GroupIds(groups[..pi]), workspace, parse)| + i
    ensures x < |Reported(GroupIds(groups), workspace, parse)|
    ensures Reported(GroupIds(groups), workspace, parse)[x] == Reported(groups[pi].iterations, workspace, parse)[i]
  {
    var a, b, c := GroupIds(groups[..pi]), groups[pi].iterations, GroupIds(groups[pi + 1..]);
    GroupIdsSplit(groups, pi);
    ReportedAppend(a + b, c, workspace, parse);
    ReportedAppend(a, b, workspace, parse);
    IndexMiddle(Reported(a, workspace, parse), Reported(b, workspace, parse), Reported(c, workspace, parse), i);
  }

  /** The `i`-th reported id of group `pi` of solver `si` sits after the
      reported ids of the earlier solvers and of the earlier groups of `si`. */
  lemma IdPlacement(exp: Experiment, si: nat, pi: nat, i: nat, workspace: Workspace, parse: JsonParser)
    requires si < |exp.ledger| && pi < |exp.ledger[si].problems|
    requires i < |Reported(exp.ledger[si].problems[pi].iterations, workspace, parse)|
    ensures Offset(exp, si, pi, workspace, parse) + i < |Reported(LedgerIds(exp.ledger), workspace, parse)|
    ensures Reported(LedgerIds(exp.ledger), workspace, parse)[Offset(exp, si, pi, workspace, parse) + i]
         == Reported(exp.ledger[si].problems[pi].iterations, workspace, parse)[i]
  {
    var x: nat := |Reported(GroupIds(exp.ledger[si].problems[..pi]), workspace, parse)| + i;
    GroupIdAt(exp.ledger[si].problems, pi, i, x, workspace, parse);
    LedgerIdAt(exp.ledger, si, x, Offset(exp, si, pi, workspace, parse) + i, workspace, parse);
  }

  /** A context entry read back from the records it was taken from. */
  lemma SlotRead(r: seq<JobDetails>, cs: seq<Context>, k: nat, ctx: Context)
    requires Contexts(r) == cs && Slot(cs, k, ctx)
    ensures k < |r| && r[k].context == ctx
  {
    ContextsIndex(r, k);
  }

  lemma DescribesAt(r: seq<JobDetails>, ids: seq<JobId>, k: nat, id: JobId, workspace: Workspace, parse: JsonParser)
    requires AllDescribe(r, ids, workspace, parse) && k < |r| && ids[k] == id
    ensures Describes(r[k], id, workspace, parse)
  {
  }

  /** The context half of the placement. */
  lemma ContextPlacement(exp: Experiment, si: nat, pi: nat, i: nat, workspace: Workspace, parse: JsonParser)
    requires GetExperimentDetails(exp, workspace, parse).Ok?
    requires si < |exp.ledger| && pi < |exp.ledger[si].problems|
    requires i < |Reported(exp.ledger[si].problems[pi].iterations, workspace, parse)|
    ensures Offset(exp, si, pi, workspace, parse) + i < |GetExperimentDetails(exp, workspace, parse).value|
    ensures GetExperimentDetails(exp, workspace, parse).value[Offset(exp, si, pi, workspace, parse) + i].context
         == At(Frame(exp, si, pi), i)
  {
    DetailsContexts(exp, workspace, parse);
    RecordsContext(exp, GetExperimentDetails(exp, workspace, parse).value, si, pi, i, workspace, parse);
  }

  /** The context half for any records that carry the reference placement. */
  lemma RecordsContext(exp: Experiment, r: seq<JobDetails>, si: nat, pi: nat, i: nat,
                       workspace: Workspace, parse: JsonParser)
    requires Contexts(r) == LedgerContexts(exp, 0, workspace, parse)
    requires si < |exp.ledger| && pi < |exp.ledger[si].problems|
    requires i < |Reported(exp.ledger[si].problems[pi].iterations, workspace, parse)|
    ensures Offset(exp, si, pi, workspace, parse) + i < |r|
    ensures r[Offset(exp, si, pi, workspace, parse) + i].context == At(Frame(exp, si, pi), i)
  {
    OffsetFromStart(exp, si, pi, workspace, parse);
    SolverPlacement(exp, 0, si, pi, i, workspace, parse);
    SlotMove(LedgerContexts(exp, 0, workspace, parse),
             SolverSpan(exp, 0, si, workspace, parse) + GroupSpan(exp, si, 0, pi, workspace, parse) + i,
             Offset(exp, si, pi, workspace, parse) + i, At(Frame(exp, si, pi), i));
    SlotRead(r, LedgerContexts(exp, 0, workspace, parse), Offset(exp, si, pi, workspace, parse) + i,
             At(Frame(exp, si, pi), i));
  }

  /** `Offset` counted from the first solver entry. */
  lemma OffsetFromStart(exp: Experiment, si: nat, pi: nat, workspace: Workspace, parse: JsonParser)
    requires si < |exp.ledger| && pi <= |exp.ledger[si].problems|
    ensures Offset(exp, si, pi, workspace, parse)
         == SolverSpan(exp, 0, si, workspace, parse) + GroupSpan(exp, si, 0, pi, workspace, parse)
  {
    assert exp.ledger[0..si] == exp.ledger[..si];
    assert exp.ledger[si].problems[0..pi] == exp.ledger[si].problems[..pi];
  }

  /** The flattened list carries the reference placement's contexts. */
  lemma DetailsContexts(exp: Experiment, workspace: Workspace, parse: JsonParser)
    requires GetExperimentDetails(exp, workspace, parse).Ok?
    ensures Contexts(GetExperimentDetails(exp, workspace, parse).value) == LedgerContexts(exp, 0, workspace, parse)
  {
    assert GetExperimentDetails(exp, workspace, parse) == SolverRecords(exp, 0, workspace, parse);
    LedgerContextsAgree(exp, 0, workspace, parse);
  }

  /** Exact placement: the record at `Offset(exp, si, pi)` + `i` is the
      record of the `i`-th reported id of problem `pi` of solver `si`, built
      in that group's frame at iteration `i`. */
  lemma RecordPlacement(exp: Experiment, si: nat, pi: nat, i: nat, workspace: Workspace, parse: JsonParser)
    requires GetExperimentDetails(exp, workspace, parse).Ok?
    requires si < |exp.ledger| && pi < |exp.ledger[si].problems|
    requires i < |Reported(exp.ledger[si].problems[pi].iterations, workspace, parse)|
    ensures Offset(exp, si, pi, workspace, parse) + i < |GetExperimentDetails(exp, workspace, parse).value|
    ensures GetExperimentDetails(exp, workspace, parse).value[Offset(exp, si, pi, workspace, parse) + i].context
         == At(Frame(exp, si, pi), i)
    ensures Describes(GetExperimentDetails(exp, workspace, parse).value[Offset(exp, si, pi, workspace, parse) + i],
                      Reported(exp.ledger[si].problems[pi].iterations, workspace, parse)[i], workspace, parse)
  {
    ContextPlacement(exp, si, pi, i, workspace, parse);
    DescribesPlacement(exp, si, pi, i, workspace, parse);
  }

  /** The id half of the placement. */
  lemma DescribesPlacement(exp: Experiment, si: nat, pi: nat, i: nat, workspace: Workspace, parse: JsonParser)
    requires GetExperimentDetails(exp, workspace, parse).Ok?
    requires si < |exp.ledger| && pi < |exp.ledger[si].problems|
    requires i < |Reported(exp.ledger[si].problems[pi].iterations, workspace, parse)|
    ensures Offset(exp, si, pi, workspace, parse) + i < |GetExperimentDetails(exp, workspace, parse).value|
    ensures Describes(GetExperimentDetails(exp, workspace, parse).value[Offset(exp, si, pi, workspace, parse) + i],
                      Reported(exp.ledger[si].problems[pi].iterations, workspace, parse)[i], workspace, parse)
  {
    RecordsDescribe(exp, GetExperimentDetails(exp, workspace, parse).value, si, pi, i, workspace, parse);
  }

  /** The id half for any records that describe the reported ledger ids. */
  lemma RecordsDescribe(exp: Experiment, r: seq<JobDetails>, si: nat, pi: nat, i: nat,
                        workspace: Workspace, parse: JsonParser)
    requires AllDescribe(r, Reported(LedgerIds(exp.ledger), workspace, parse), workspace, parse)
    requires si < |exp.ledger| && pi < |exp.ledger[si].problems|
    requires i < |Reported(exp.ledger[si].problems[pi].iterations, workspace, parse)|
    ensures Offset(exp, si, pi, workspace, parse) + i < |r|
    ensures Describes(r[Offset(exp, si, pi, workspace, parse) + i],
                      Reported(exp.ledger[si].problems[pi].iterations, workspace, parse)[i], workspace, parse)
  {
    IdPlacement(exp, si, pi, i, workspace, parse);
    DescribesAt(r, Reported(LedgerIds(exp.ledger), workspace, parse), Offset(exp, si, pi, workspace, parse) + i,
                Reported(exp.ledger[si].problems[pi].iterations, workspace, parse)[i], workspace, parse);
  }


}
