/** The experiment object and the submission ledger `submit` leaves in
    `self.experiment`: per solver, per problem, the ids of the jobs that were
    submitted successfully. */
module Ledger {
  import opened Wrappers
  import opened Jobs

  /** A solver; `className` is `type(solver).__module__ + "." + type(solver).__name__`. */
  datatype Solver = Solver(className: string)

  /** A problem, reduced to what the engine reads from it. */
  datatype Problem = Problem(name: string, uploadedBlobUri: string)

  /** What a successful `solver.submit(problem)` hands back: the job id and the
      solver parameters the service echoes in `job.details.input_params`. */
  datatype SubmittedJob = SubmittedJob(id: JobId, inputParams: Params)

  /** One problem's entry: `input_data_uri`, `num_iterations` and `iterations`. */
  datatype ProblemGroup = ProblemGroup(inputDataUri: string, numIterations: int, iterations: seq<JobId>)

  /** One solver's entry: `solver`, `input_params` and `problems`. */
  datatype SolverGroup = SolverGroup(solver: string, inputParams: Params, problems: seq<ProblemGroup>)

  /** The state of an `Experiment` object. `date` is `str(self.date)`. */
  datatype Experiment = Experiment(
    experimentId: string,
    date: string,
    numIterations: int,
    solvers: seq<Solver>,
    problems: seq<Problem>,
    jobIds: seq<JobId>,
    ledger: seq<SolverGroup>)

  /** `Experiment(solver_list, problem_list, num_iterations, experiment_id)`:
      the fresh uuid and the current time are passed in; the id given by the
      caller wins over the uuid. Nothing is submitted yet. */
  function NewExperiment(solvers: seq<Solver>, problems: seq<Problem>, numIterations: int,
                         experimentId: Option<string>, uuid: string, now: string): (e: Experiment)
    ensures e.jobIds == [] && e.ledger == []
    ensures e.solvers == solvers && e.problems == problems && e.numIterations == numIterations
    ensures experimentId.Some? ==> e.experimentId == experimentId.value
    ensures experimentId.None? ==> e.experimentId == uuid
    ensures e.date == now
  {
    Experiment(if experimentId.Some? then experimentId.value else uuid, now, numIterations, solvers, problems, [], [])
  }

  /** The ids of a solver's problem groups, problem by problem. */
  function GroupIds(groups: seq<ProblemGroup>): seq<JobId>
  {
    if |groups| == 0 then [] else groups[0].iterations + GroupIds(groups[1..])
  }

  /** Every id the ledger records, solver by solver, problem by problem,
      iteration by iteration. */
  function LedgerIds(ledger: seq<SolverGroup>): seq<JobId>
  {
    if |ledger| == 0 then [] else GroupIds(ledger[0].problems) + LedgerIds(ledger[1..])
  }

  lemma {:induction false} GroupIdsAppend(a: seq<ProblemGroup>, b: seq<ProblemGroup>)
    ensures GroupIds(a + b) == GroupIds(a) + GroupIds(b)
  {
    if |a| == 0 {
      assert a + b == b;
    } else {
      assert (a + b)[1..] == a[1..] + b;
      GroupIdsAppend(a[1..], b);
    }
  }

  lemma {:induction false} LedgerIdsAppend(a: seq<SolverGroup>, b: seq<SolverGroup>)
    ensures LedgerIds(a + b) == LedgerIds(a) + LedgerIds(b)
  {
    if |a| == 0 {
      assert a + b == b;
    } else {
      assert (a + b)[1..] == a[1..] + b;
      LedgerIdsAppend(a[1..], b);
    }
  }
}
