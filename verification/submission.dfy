/** `Experiment.submit` and its two private helpers: the solver x problem x
    iteration walk that builds the ledger and the flat `job_id_list`. */
module Submission {
  import opened Wrappers
  import opened Jobs
  import opened Ledger

  /** `solver_list[si].submit(problem_list[pi])` at iteration `i`, keyed by the
      two list positions and the iteration: the job, or None when the call
      raises. Each call is a separate remote submission, so equal entries at
      different positions of a list may fare differently. */
  type SubmitOracle = (nat, nat, nat) -> Option<SubmittedJob>

  /** What one attempt adds: its job, or nothing. */
  function Attempt(submit: SubmitOracle, si: nat, pi: nat, i: nat): seq<SubmittedJob>
  {
    match submit(si, pi, i)
    case Some(j) => [j]
    case None => []
  }

  /** The jobs obtained by iterations 0 .. i-1, in iteration order, with no
      placeholder for a failed attempt. */
  function Successes(submit: SubmitOracle, si: nat, pi: nat, i: nat): (r: seq<SubmittedJob>)
    ensures |r| <= i
  {
    if i == 0 then [] else Successes(submit, si, pi, i - 1) + Attempt(submit, si, pi, i - 1)
  }

  /** The length of `range(num_iterations)`. */
  function Iterations(n: int): nat
  {
    if n > 0 then n else 0
  }

  /** The jobs one (solver, problem) pair yields over all its iterations. */
  function ProblemJobs(submit: SubmitOracle, si: nat, pi: nat, n: int): seq<SubmittedJob>
  {
    Successes(submit, si, pi, Iterations(n))
  }

  function Ids(jobs: seq<SubmittedJob>): (r: seq<JobId>)
    ensures |r| == |jobs|
  {
    seq(|jobs|, k requires 0 <= k < |jobs| => jobs[k].id)
  }

  lemma IdsAppend(a: seq<SubmittedJob>, b: seq<SubmittedJob>)
    ensures Ids(a + b) == Ids(a) + Ids(b)
  {
  }

  /** The group recorded for the problem `p` at position `pi`. */
  function ProblemGroupOf(submit: SubmitOracle, si: nat, pi: nat, p: Problem, n: int): ProblemGroup
  {
    ProblemGroup(p.uploadedBlobUri, n, Ids(ProblemJobs(submit, si, pi, n)))
  }

  /** The groups of the first k problems: one per problem, in problem order,
      whether or not any of its submissions succeeded. */
  function GroupsUpTo(submit: SubmitOracle, si: nat, problems: seq<Problem>, n: int, k: nat): (r: seq<ProblemGroup>)
    requires k <= |problems|
    ensures |r| == k
    ensures forall q :: 0 <= q < k ==> r[q] == ProblemGroupOf(submit, si, q, problems[q], n)
  {
    if k == 0 then [] else GroupsUpTo(submit, si, problems, n, k - 1) + [ProblemGroupOf(submit, si, k - 1, problems[k - 1], n)]
  }

  /** The jobs one solver obtains over the first k problems. */
  function SolverJobs(submit: SubmitOracle, si: nat, problems: seq<Problem>, n: int, k: nat): seq<SubmittedJob>
    requires k <= |problems|
  {
    if k == 0 then [] else SolverJobs(submit, si, problems, n, k - 1) + ProblemJobs(submit, si, k - 1, n)
  }

  function LastOf(jobs: seq<SubmittedJob>): Option<SubmittedJob>
  {
    if |jobs| == 0 then None else Some(jobs[|jobs| - 1])
  }

  lemma LastOfAppend(a: seq<SubmittedJob>, b: seq<SubmittedJob>)
    ensures LastOf(a + b) == if |b| == 0 then LastOf(a) else LastOf(b)
  {
    if |b| == 0 {
      assert a + b == a;
    }
  }

  /** The entry a solver leaves in the ledger: none when no submission
      succeeded (reading the unbound `job` raises and `submit` swallows it),
      otherwise its groups and the parameters of its last successful job. */
  function SolverGroupOf(submit: SubmitOracle, si: nat, s: Solver, problems: seq<Problem>, n: int): Option<SolverGroup>
  {
    match LastOf(SolverJobs(submit, si, problems, n, |problems|))
    case None => None
    case Some(job) => Some(SolverGroup(s.className, job.inputParams, GroupsUpTo(submit, si, problems, n, |problems|)))
  }

  /** What one solver adds to the ledger, as a sequence of zero or one entries. */
  function EntryOf(submit: SubmitOracle, si: nat, s: Solver, problems: seq<Problem>, n: int): seq<SolverGroup>
  {
    match SolverGroupOf(submit, si, s, problems, n)
    case None => []
    case Some(g) => [g]
  }

  /** The ledger entries of the first k solvers, dropped solvers left out. */
  function KeptUpTo(submit: SubmitOracle, solvers: seq<Solver>, problems: seq<Problem>, n: int, k: nat): (r: seq<SolverGroup>)
    requires k <= |solvers|
    ensures |r| <= k
  {
    if k == 0 then []
    else
      KeptUpTo(submit, solvers, problems, n, k - 1) + EntryOf(submit, k - 1, solvers[k - 1], problems, n)
  }

  /** The jobs of the first k solvers, solver by solver. */
  function JobsUpTo(submit: SubmitOracle, solvers: seq<Solver>, problems: seq<Problem>, n: int, k: nat): seq<SubmittedJob>
    requires k <= |solvers|
  {
    if k == 0 then [] else JobsUpTo(submit, solvers, problems, n, k - 1) + SolverJobs(submit, k - 1, problems, n, |problems|)
  }

  /** The experiment after `submit()`: the ledger is replaced, the new ids are
      appended to `job_id_list`, and nothing else changes. */
  function Submit(exp: Experiment, submit: SubmitOracle): (r: Experiment)
    ensures r.experimentId == exp.experimentId && r.date == exp.date && r.numIterations == exp.numIterations
    ensures r.solvers == exp.solvers && r.problems == exp.problems
    ensures exp.jobIds <= r.jobIds
    ensures |r.ledger| <= |exp.solvers|
  {
    var solvers := exp.solvers;
    var problems := exp.problems;
    var n := exp.numIterations;
    exp.(ledger := KeptUpTo(submit, solvers, problems, n, |solvers|),
         jobIds := exp.jobIds + Ids(JobsUpTo(submit, solvers, problems, n, |solvers|)))
  }

  /** `__submit_one_problem_num_iterations_times` for the problem `p` at
      position `pi`: every successful id goes to the flat list and to the
      problem's group, and the group is appended whatever happened. The
      returned job is None where the Python `return job` raises on the
      unbound `job`. */
  method SubmitOneProblem(submit: SubmitOracle, si: nat, pi: nat, p: Problem, n: int,
                          jobIds: seq<JobId>, groups: seq<ProblemGroup>)
    returns (jobIds': seq<JobId>, groups': seq<ProblemGroup>, job: Option<SubmittedJob>)
    ensures jobIds' == jobIds + Ids(ProblemJobs(submit, si, pi, n))
    ensures groups' == groups + [ProblemGroupOf(submit, si, pi, p, n)]
    ensures job == LastOf(ProblemJobs(submit, si, pi, n))
  {
    var iterationIds: seq<JobId> := [];
    ghost var jobs: seq<SubmittedJob> := [];
    jobIds' := jobIds;
    job := None;
    var i: nat := 0;
    while i < n
      invariant i <= Iterations(n)
      invariant jobs == Successes(submit, si, pi, i)
      invariant iterationIds == Ids(jobs)
      invariant jobIds' == jobIds + iterationIds
      invariant job == LastOf(jobs)
    {
      match submit(si, pi, i) {
        case Some(j) =>
          jobIds' := jobIds' + [j.id];
          iterationIds := iterationIds + [j.id];
          job := Some(j);
          IdsAppend(jobs, [j]);
          jobs := jobs + [j];
        case None =>
      }
      i := i + 1;
    }
    groups' := groups + [ProblemGroup(p.uploadedBlobUri, n, iterationIds)];
  }

  /** One more problem extends the solver's jobs, ids and groups at the end. */
  lemma SolverJobsStep(submit: SubmitOracle, si: nat, problems: seq<Problem>, n: int, k: nat, prefix: seq<JobId>)
    requires k < |problems|
    ensures prefix + Ids(SolverJobs(submit, si, problems, n, k)) + Ids(ProblemJobs(submit, si, k, n))
         == prefix + Ids(SolverJobs(submit, si, problems, n, k + 1))
  {
    IdsAppend(SolverJobs(submit, si, problems, n, k), ProblemJobs(submit, si, k, n));
  }

  lemma LastJobStep(submit: SubmitOracle, si: nat, problems: seq<Problem>, n: int, k: nat,
                    job: Option<SubmittedJob>, last: Option<SubmittedJob>)
    requires k < |problems|
    requires job == LastOf(SolverJobs(submit, si, problems, n, k))
    requires last == LastOf(ProblemJobs(submit, si, k, n))
    ensures (if last.Some? then last else job) == LastOf(SolverJobs(submit, si, problems, n, k + 1))
  {
    LastOfAppend(SolverJobs(submit, si, problems, n, k), ProblemJobs(submit, si, k, n));
  }

  /** One more solver extends the experiment's ids and ledger at the end. */
  lemma SolverStep(submit: SubmitOracle, solvers: seq<Solver>, problems: seq<Problem>, n: int, k: nat, prefix: seq<JobId>)
    requires k < |solvers|
    ensures prefix + Ids(JobsUpTo(submit, solvers, problems, n, k)) + Ids(SolverJobs(submit, k, problems, n, |problems|))
         == prefix + Ids(JobsUpTo(submit, solvers, problems, n, k + 1))
    ensures var g := SolverGroupOf(submit, k, solvers[k], problems, n);
      KeptUpTo(submit, solvers, problems, n, k + 1)
      == KeptUpTo(submit, solvers, problems, n, k) + (if g.Some? then [g.value] else [])
  {
    IdsAppend(JobsUpTo(submit, solvers, problems, n, k), SolverJobs(submit, k, problems, n, |problems|));
  }

  /** The solver list after a solver's helper returns: extended by its entry,
      or the UnboundJob error when it has none. */
  function Appended(g: Option<SolverGroup>, solverGroups: seq<SolverGroup>): Result<seq<SolverGroup>>
  {
    match g
    case None => Err(UnboundJob)
    case Some(entry) => Ok(solverGroups + [entry])
  }

  /** `__submit_problems_in_problem_list` for the solver `s` at position `si`:
      the groups of all problems, then the solver's entry; `Err(UnboundJob)`
      where reading `job` raises because no problem produced a job. The flat id
      list grows either way. */
  method SubmitProblems(submit: SubmitOracle, si: nat, s: Solver, problems: seq<Problem>, n: int,
                        jobIds: seq<JobId>, solverGroups: seq<SolverGroup>)
    returns (r: Result<seq<SolverGroup>>, jobIds': seq<JobId>)
    ensures jobIds' == jobIds + Ids(SolverJobs(submit, si, problems, n, |problems|))
    ensures r == Appended(SolverGroupOf(submit, si, s, problems, n), solverGroups)
  {
    var groups: seq<ProblemGroup> := [];
    var job: Option<SubmittedJob> := None;
    jobIds' := jobIds;
    for k: nat := 0 to |problems|
      invariant groups == GroupsUpTo(submit, si, problems, n, k)
      invariant jobIds' == jobIds + Ids(SolverJobs(submit, si, problems, n, k))
      invariant job == LastOf(SolverJobs(submit, si, problems, n, k))
    {
      var last;
      jobIds', groups, last := SubmitOneProblem(submit, si, k, problems[k], n, jobIds', groups);
      SolverJobsStep(submit, si, problems, n, k, jobIds);
      LastJobStep(submit, si, problems, n, k, job, last);
      // When the helper raised, its group was already appended to the shared
      // list, and `job` keeps the value of the last problem that returned.
      if last.Some? {
        job := last;
      }
    }
    assert job == LastOf(SolverJobs(submit, si, problems, n, |problems|));
    if job.None? {
      r := Err(UnboundJob);
    } else {
      r := Ok(solverGroups + [SolverGroup(s.className, job.value.inputParams, groups)]);
    }
  }

  /** `submit()`: never raises; a solver whose helper raised is left out. */
  method SubmitExperiment(exp: Experiment, submit: SubmitOracle) returns (r: Experiment)
    ensures r == Submit(exp, submit)
  {
    var solvers, problems, n := exp.solvers, exp.problems, exp.numIterations;
    var solverGroups: seq<SolverGroup> := [];
    var jobIds := exp.jobIds;
    for k: nat := 0 to |solvers|
      invariant solverGroups == KeptUpTo(submit, solvers, problems, n, k)
      invariant jobIds == exp.jobIds + Ids(JobsUpTo(submit, solvers, problems, n, k))
    {
      SolverStep(submit, solvers, problems, n, k, exp.jobIds);
      var res;
      res, jobIds := SubmitProblems(submit, k, solvers[k], problems, n, jobIds, solverGroups);
      if res.Ok? {
        solverGroups := res.value;
      }
    }
    r := exp.(ledger := solverGroups, jobIds := jobIds);
  }

  /** A job is among a pair's successes exactly when some attempt before `i`
      returned it. */
  lemma {:induction false} SuccessesMembership(submit: SubmitOracle, si: nat, pi: nat, i: nat, j: SubmittedJob)
    ensures j in Successes(submit, si, pi, i) <==> exists k :: 0 <= k < i && submit(si, pi, k) == Some(j)
  {
    if i > 0 {
      SuccessesMembership(submit, si, pi, i - 1, j);
    }
  }

  /** No placeholders: the list has one entry per iteration exactly when
      every attempt succeeded. */
  lemma {:induction false} SuccessesFull(submit: SubmitOracle, si: nat, pi: nat, i: nat)
    ensures |Successes(submit, si, pi, i)| == i <==> forall k :: 0 <= k < i ==> submit(si, pi, k).Some?
  {
    if i > 0 {
      SuccessesFull(submit, si, pi, i - 1);
    }
  }

  lemma {:induction false} SuccessesEmpty(submit: SubmitOracle, si: nat, pi: nat, i: nat)
    ensures Successes(submit, si, pi, i) == [] <==> forall k :: 0 <= k < i ==> submit(si, pi, k).None?
  {
    if i > 0 {
      SuccessesEmpty(submit, si, pi, i - 1);
    }
  }

  /** Iteration order: later iterations only append, so the successes of the
      first `i` attempts are a prefix of those of the first `i'`. */
  lemma {:induction false} SuccessesPrefix(submit: SubmitOracle, si: nat, pi: nat, i: nat, i': nat)
    requires i <= i'
    ensures Successes(submit, si, pi, i) <= Successes(submit, si, pi, i')
    decreases i' - i
  {
    if i < i' {
      SuccessesPrefix(submit, si, pi, i, i' - 1);
    }
  }

  lemma {:induction false} SolverJobsEmpty(submit: SubmitOracle, si: nat, problems: seq<Problem>, n: int, k: nat)
    requires k <= |problems|
    ensures SolverJobs(submit, si, problems, n, k) == [] <==>
      forall q: nat, i: nat :: q < k && i < n ==> submit(si, q, i).None?
  {
    if k > 0 {
      SolverJobsEmpty(submit, si, problems, n, k - 1);
      SuccessesEmpty(submit, si, k - 1, Iterations(n));
    }
  }

  /** A solver is left out of the ledger exactly when none of its submissions
      succeeded, which includes an empty problem list and a non-positive
      iteration count. */
  lemma DroppedIff(submit: SubmitOracle, si: nat, s: Solver, problems: seq<Problem>, n: int)
    ensures SolverGroupOf(submit, si, s, problems, n).None? <==>
      forall q: nat, i: nat :: q < |problems| && i < n ==> submit(si, q, i).None?
  {
    SolverJobsEmpty(submit, si, problems, n, |problems|);
  }

  lemma {:induction false} LastOfSuccesses(submit: SubmitOracle, si: nat, pi: nat, i: nat) returns (k: nat)
    requires Successes(submit, si, pi, i) != []
    ensures k < i
    ensures submit(si, pi, k) == LastOf(Successes(submit, si, pi, i))
    ensures forall k' :: k < k' < i ==> submit(si, pi, k').None?
  {
    var j: nat := i - 1;
    assert Successes(submit, si, pi, i) == Successes(submit, si, pi, j) + Attempt(submit, si, pi, j);
    if submit(si, pi, j).Some? {
      k := j;
    } else {
      assert Successes(submit, si, pi, i) == Successes(submit, si, pi, j);
      k := LastOfSuccesses(submit, si, pi, j);
    }
  }

  /** The solver's jobs after problem `p`: its last job is the problem's own
      last job, or the one before when the problem added none. */
  lemma SolverJobsLast(submit: SubmitOracle, si: nat, problems: seq<Problem>, n: int, p: nat)
    requires p < |problems|
    ensures |SolverJobs(submit, si, problems, n, p + 1)|
         == |SolverJobs(submit, si, problems, n, p)| + |ProblemJobs(submit, si, p, n)|
    ensures LastOf(SolverJobs(submit, si, problems, n, p + 1))
         == if |ProblemJobs(submit, si, p, n)| == 0 then LastOf(SolverJobs(submit, si, problems, n, p))
            else LastOf(ProblemJobs(submit, si, p, n))
  {
    LastOfAppend(SolverJobs(submit, si, problems, n, p), ProblemJobs(submit, si, p, n));
  }

  lemma {:induction false} LastOfSolverJobs(submit: SubmitOracle, si: nat, problems: seq<Problem>, n: int, kq: nat)
    returns (q: nat)
    requires kq <= |problems|
    requires |SolverJobs(submit, si, problems, n, kq)| > 0
    ensures q < kq
    ensures |ProblemJobs(submit, si, q, n)| > 0
    ensures LastOf(SolverJobs(submit, si, problems, n, kq)) == LastOf(ProblemJobs(submit, si, q, n))
    ensures forall q': nat :: q < q' < kq ==> |ProblemJobs(submit, si, q', n)| == 0
  {
    var p: nat := kq - 1;
    SolverJobsLast(submit, si, problems, n, p);
    if |ProblemJobs(submit, si, p, n)| > 0 {
      q := p;
    } else {
      q := LastOfSolverJobs(submit, si, problems, n, p);
      forall q': nat | q < q' < kq
        ensures |ProblemJobs(submit, si, q', n)| == 0
      {
      }
    }
  }

  /** A kept solver's `input_params` are those of its last successful
      submission: attempt `k` on problem `q` succeeded, and every attempt after
      it, on that problem or a later one, failed. */
  lemma LastSuccessfulParams(submit: SubmitOracle, si: nat, s: Solver, problems: seq<Problem>, n: int) returns (q: nat, k: nat)
    requires SolverGroupOf(submit, si, s, problems, n).Some?
    ensures q < |problems| && k < n
    ensures submit(si, q, k).Some?
    ensures SolverGroupOf(submit, si, s, problems, n).value.inputParams == submit(si, q, k).value.inputParams
    ensures forall k' :: k < k' < n ==> submit(si, q, k').None?
    ensures forall q': nat, k': nat :: q < q' < |problems| && k' < n ==> submit(si, q', k').None?
  {
    q := LastOfSolverJobs(submit, si, problems, n, |problems|);
    k := LastOfSuccesses(submit, si, q, Iterations(n));
    forall q': nat, k': nat | q < q' < |problems| && k' < n
      ensures submit(si, q', k').None?
    {
      assert |ProblemJobs(submit, si, q', n)| == 0;
      SuccessesEmpty(submit, si, q', Iterations(n));
    }
  }

  /** A ledger entry's shape: one group per problem, in problem order, each
      echoing the problem's URI and the iteration count, with at most that many
      ids. */
  predicate WellShaped(g: SolverGroup, problems: seq<Problem>, n: int)
  {
    && |g.problems| == |problems|
    && forall q :: 0 <= q < |problems| ==>
         && g.problems[q].inputDataUri == problems[q].uploadedBlobUri
         && g.problems[q].numIterations == n
         && |g.problems[q].iterations| <= Iterations(n)
  }

  lemma {:induction false} KeptShape(submit: SubmitOracle, solvers: seq<Solver>, problems: seq<Problem>, n: int, k: nat)
    requires k <= |solvers|
    ensures forall g :: g in KeptUpTo(submit, solvers, problems, n, k) ==> WellShaped(g, problems, n)
  {
    if k > 0 {
      KeptShape(submit, solvers, problems, n, k - 1);
    }
  }

  /** Every entry `submit` leaves in the ledger is well shaped. */
  lemma SubmitShape(exp: Experiment, submit: SubmitOracle)
    ensures forall g :: g in Submit(exp, submit).ledger ==> WellShaped(g, exp.problems, exp.numIterations)
  {
    KeptShape(submit, exp.solvers, exp.problems, exp.numIterations, |exp.solvers|);
  }

  lemma SolverJobsNone(submit: SubmitOracle, si: nat, s: Solver, problems: seq<Problem>, n: int)
    requires problems == []
    ensures SolverGroupOf(submit, si, s, problems, n).None?
  {
    assert SolverJobs(submit, si, problems, n, |problems|) == [];
  }

  /** A kept solver always has at least one problem group, so a ledger left
      by `submit` never trips the per-solver "Empty problem list" check. */
  lemma {:induction false} KeptHaveProblems(submit: SubmitOracle, solvers: seq<Solver>, problems: seq<Problem>, n: int, k: nat)
    requires k <= |solvers|
    ensures forall g :: g in KeptUpTo(submit, solvers, problems, n, k) ==> g.problems != []
  {
    if k > 0 {
      KeptHaveProblems(submit, solvers, problems, n, k - 1);
      if problems == [] {
        SolverJobsNone(submit, k - 1, solvers[k - 1], problems, n);
      }
    }
  }

  lemma {:induction false} GroupsIds(submit: SubmitOracle, si: nat, problems: seq<Problem>, n: int, k: nat)
    requires k <= |problems|
    ensures GroupIds(GroupsUpTo(submit, si, problems, n, k)) == Ids(SolverJobs(submit, si, problems, n, k))
  {
    if k > 0 {
      var g := ProblemGroupOf(submit, si, k - 1, problems[k - 1], n);
      GroupsIds(submit, si, problems, n, k - 1);
      GroupIdsAppend(GroupsUpTo(submit, si, problems, n, k - 1), [g]);
      IdsAppend(SolverJobs(submit, si, problems, n, k - 1), ProblemJobs(submit, si, k - 1, n));
      assert GroupIds([g]) == g.iterations + GroupIds([]);
    }
  }

  lemma EntryIds(submit: SubmitOracle, si: nat, s: Solver, problems: seq<Problem>, n: int)
    ensures LedgerIds(EntryOf(submit, si, s, problems, n)) == Ids(SolverJobs(submit, si, problems, n, |problems|))
  {
    var g := SolverGroupOf(submit, si, s, problems, n);
    if g.Some? {
      GroupsIds(submit, si, problems, n, |problems|);
      assert LedgerIds([g.value]) == GroupIds(g.value.problems) + LedgerIds([]);
    }
  }

  lemma {:induction false} KeptIds(submit: SubmitOracle, solvers: seq<Solver>, problems: seq<Problem>, n: int, k: nat)
    requires k <= |solvers|
    ensures LedgerIds(KeptUpTo(submit, solvers, problems, n, k)) == Ids(JobsUpTo(submit, solvers, problems, n, k))
  {
    if k > 0 {
      var j: nat := k - 1;
      KeptIds(submit, solvers, problems, n, j);
      KeptIdsStep(submit, solvers, problems, n, j);
    }
  }

  lemma KeptIdsStep(submit: SubmitOracle, solvers: seq<Solver>, problems: seq<Problem>, n: int, j: nat)
    requires j < |solvers|
    requires LedgerIds(KeptUpTo(submit, solvers, problems, n, j)) == Ids(JobsUpTo(submit, solvers, problems, n, j))
    ensures LedgerIds(KeptUpTo(submit, solvers, problems, n, j + 1)) == Ids(JobsUpTo(submit, solvers, problems, n, j + 1))
  {
    var before := KeptUpTo(submit, solvers, problems, n, j);
    var entry := EntryOf(submit, j, solvers[j], problems, n);
    var jobs := JobsUpTo(submit, solvers, problems, n, j);
    var added := SolverJobs(submit, j, problems, n, |problems|);
    assert KeptUpTo(submit, solvers, problems, n, j + 1) == before + entry;
    assert JobsUpTo(submit, solvers, problems, n, j + 1) == jobs + added;
    IdsAppend(jobs, added);
    LedgerIdsAppend(before, entry);
    EntryIds(submit, j, solvers[j], problems, n);
  }

  /** The flat `job_id_list` grows by exactly the ids the new ledger holds,
      in solver, problem, iteration order. */
  lemma SubmitRecordsLedgerIds(exp: Experiment, submit: SubmitOracle)
    ensures Submit(exp, submit).jobIds == exp.jobIds + LedgerIds(Submit(exp, submit).ledger)
  {
    KeptIds(submit, exp.solvers, exp.problems, exp.numIterations, |exp.solvers|);
  }

  /** Every submission of the solver at position `si` succeeds. */
  predicate SolverNeverFails(submit: SubmitOracle, si: nat, np: nat, n: int)
  {
    forall q: nat, i: nat :: q < np && i < n ==> submit(si, q, i).Some?
  }

  lemma {:induction false} SolverJobsCount(submit: SubmitOracle, si: nat, problems: seq<Problem>, n: nat, k: nat)
    requires k <= |problems|
    requires SolverNeverFails(submit, si, |problems|, n)
    ensures |SolverJobs(submit, si, problems, n, k)| == k * n
  {
    if k > 0 {
      SolverJobsCount(submit, si, problems, n, k - 1);
      SuccessesFull(submit, si, k - 1, Iterations(n));
    }
  }

  /** Every group of a solver holds one id per iteration when none of its
      submissions fails. */
  lemma FullGroups(submit: SubmitOracle, si: nat, problems: seq<Problem>, n: nat)
    requires SolverNeverFails(submit, si, |problems|, n)
    ensures forall q :: 0 <= q < |problems| ==>
      |GroupsUpTo(submit, si, problems, n, |problems|)[q].iterations| == n
  {
    forall q | 0 <= q < |problems|
      ensures |GroupsUpTo(submit, si, problems, n, |problems|)[q].iterations| == n
    {
      SuccessesFull(submit, si, q, n);
    }
  }

  /** No submission of the first `k` solvers fails. */
  predicate NeverFails(submit: SubmitOracle, k: nat, np: nat, n: int)
  {
    forall si: nat :: si < k ==> SolverNeverFails(submit, si, np, n)
  }

  /** A solver none of whose submissions fails is kept, with full groups. */
  lemma KeptFull(submit: SubmitOracle, si: nat, s: Solver, problems: seq<Problem>, n: nat)
    requires SolverNeverFails(submit, si, |problems|, n)
    requires n >= 1 && |problems| >= 1
    ensures SolverGroupOf(submit, si, s, problems, n).Some?
    ensures EntryOf(submit, si, s, problems, n) == [SolverGroupOf(submit, si, s, problems, n).value]
    ensures var g := SolverGroupOf(submit, si, s, problems, n).value;
      forall q :: 0 <= q < |g.problems| ==> |g.problems[q].iterations| == n
  {
    DroppedIff(submit, si, s, problems, n);
    assert submit(si, 0, 0).Some?;
    FullGroups(submit, si, problems, n);
  }

  /** Every group of every entry holds `n` ids. */
  predicate AllGroupsFull(ledger: seq<SolverGroup>, n: int)
  {
    forall g :: g in ledger ==> forall q :: 0 <= q < |g.problems| ==> |g.problems[q].iterations| == n
  }

  lemma AllGroupsFullAppend(before: seq<SolverGroup>, g: SolverGroup, n: int)
    requires AllGroupsFull(before, n)
    requires forall q :: 0 <= q < |g.problems| ==> |g.problems[q].iterations| == n
    ensures AllGroupsFull(before + [g], n)
  {
    forall h | h in before + [g]
      ensures forall q :: 0 <= q < |h.problems| ==> |h.problems[q].iterations| == n
    {
      if h !in before {
        assert h == g;
      }
    }
  }

  lemma {:induction false} AllKept(submit: SubmitOracle, solvers: seq<Solver>, problems: seq<Problem>, n: nat, k: nat)
    requires k <= |solvers|
    requires NeverFails(submit, k, |problems|, n)
    requires n >= 1 && |problems| >= 1
    ensures |KeptUpTo(submit, solvers, problems, n, k)| == k
    ensures AllGroupsFull(KeptUpTo(submit, solvers, problems, n, k), n)
  {
    if k > 0 {
      var j: nat := k - 1;
      AllKept(submit, solvers, problems, n, j);
      assert SolverNeverFails(submit, j, |problems|, n);
      KeptFull(submit, j, solvers[j], problems, n);
      var g := SolverGroupOf(submit, j, solvers[j], problems, n).value;
      KeptStep(submit, solvers, problems, n, j, g);
      AllGroupsFullAppend(KeptUpTo(submit, solvers, problems, n, j), g, n);
    }
  }

  lemma KeptStep(submit: SubmitOracle, solvers: seq<Solver>, problems: seq<Problem>, n: int, j: nat, g: SolverGroup)
    requires j < |solvers|
    requires EntryOf(submit, j, solvers[j], problems, n) == [g]
    ensures KeptUpTo(submit, solvers, problems, n, j + 1) == KeptUpTo(submit, solvers, problems, n, j) + [g]
  {
  }

  lemma {:induction false} AllJobsCount(submit: SubmitOracle, solvers: seq<Solver>, problems: seq<Problem>, n: nat, k: nat)
    requires k <= |solvers|
    requires NeverFails(submit, k, |problems|, n)
    ensures |JobsUpTo(submit, solvers, problems, n, k)| == k * (|problems| * n)
  {
    if k > 0 {
      var j: nat := k - 1;
      AllJobsCount(submit, solvers, problems, n, j);
      assert SolverNeverFails(submit, j, |problems|, n);
      SolverJobsCount(submit, j, problems, n, |problems|);
      assert (k - 1) * (|problems| * n) + |problems| * n == k * (|problems| * n);
    }
  }

  /** With no failed submission, every solver is kept, every group holds
      `num_iterations` ids, and the batch holds solvers x problems x
      iterations ids. */
  lemma AllSubmissionsSucceed(exp: Experiment, submit: SubmitOracle)
    requires exp.numIterations >= 1 && |exp.problems| >= 1
    requires NeverFails(submit, |exp.solvers|, |exp.problems|, exp.numIterations)
    ensures |Submit(exp, submit).ledger| == |exp.solvers|
    ensures AllGroupsFull(Submit(exp, submit).ledger, exp.numIterations)
    ensures |Submit(exp, submit).jobIds| == |exp.jobIds| + |exp.solvers| * (|exp.problems| * exp.numIterations)
  {
    AllKept(submit, exp.solvers, exp.problems, exp.numIterations, |exp.solvers|);
    AllJobsCount(submit, exp.solvers, exp.problems, exp.numIterations, |exp.solvers|);
  }
}
