/** `Experiment.get_job_details`: one job turned into a report record whose
    extra keys depend on the job's status. */
module Details {
  import opened Wrappers
  import opened Jobs
  import Text

  /** The problem object attached to every record; `get_experiment_details`
      fills both entries with their own key names. */
  datatype ProblemInfo = ProblemInfo(quboSize: string, quboDensity: string)

  const PlaceholderProblem := ProblemInfo("qubo_size", "qubo_density")

  /** The solver object attached to every record. */
  datatype SolverInfo = SolverInfo(className: string, inputParams: Params)

  /** The experiment object attached to every record. */
  datatype ExperimentInfo = ExperimentInfo(
    experimentId: string,
    date: string,
    numIterations: int,
    iteration: nat,
    solverListLength: nat,
    solverListIndex: nat,
    problemListLength: nat,
    problemListIndex: nat)

  datatype Context = Context(problem: ProblemInfo, solver: SolverInfo, experiment: ExperimentInfo)

  /** A duration as a record stores it: `str(td.total_seconds())`, or `str(td)`
      for the one field `get_job_details` leaves as a timedelta. */
  datatype Duration = Seconds(seconds: int) | Timedelta(span: int)

  /** The status-specific result keys: none, `cost` and `parameters` (either may
      hold None), or `error_data`. */
  datatype Outcome =
    | NoOutcome
    | Solved(cost: Option<string>, parameters: Option<Params>)
    | Errored(errorData: Json)

  /** The dictionary `get_job_details` returns; a duration field that is None is
      a key the dictionary does not have. */
  datatype JobDetails = JobDetails(
    id: JobId,
    target: string,
    status: Status,
    creationTime: int,
    inputDataUri: Option<string>,
    outputDataUri: Option<string>,
    context: Context,
    executionTime: Option<Duration>,
    queueTime: Option<Duration>,
    totalTime: Option<Duration>,
    outcome: Outcome)

  /** The keys every record has, whatever the status. */
  const BaseKeys: set<string> :=
    {"id", "target", "status", "creation_time", "input_data_uri", "output_data_uri", "problem", "solver", "experiment"}

  /** The key set of the dictionary a record stands for. */
  function Keys(d: JobDetails): set<string>
  {
    BaseKeys
    + (if d.executionTime.Some? then {"execution_time"} else {})
    + (if d.queueTime.Some? then {"queue_time"} else {})
    + (if d.totalTime.Some? then {"total_time"} else {})
    + (match d.outcome
       case NoOutcome => {}
       case Solved(_, _) => {"cost", "parameters"}
       case Errored(_) => {"error_data"})
  }

  /** The extra keys a job's status calls for: which timestamps make which
      durations computable, and which outcome keys the status brings. */
  function StatusKeys(job: JobInfo): set<string>
  {
    match job.status
    case Succeeded => {"execution_time", "queue_time", "total_time", "cost", "parameters"}
    case Failed =>
      (if job.beginExecutionTime.Some? && job.endExecutionTime.Some?
       then {"execution_time", "queue_time", "total_time"} else {}) + {"error_data"}
    case Cancelled =>
      (if job.beginExecutionTime.Some? then {"execution_time", "queue_time"} else {}) + {"total_time"}
    case Executing => {"queue_time"}
    case _ => {}
  }

  /** When building the record raises: arithmetic on a missing timestamp, an
      empty or null `solutions` list, or an error payload the parser rejects. */
  predicate DetailsRaise(job: JobInfo, parse: JsonParser)
  {
    match job.status
    case Succeeded =>
      || job.beginExecutionTime.None?
      || job.endExecutionTime.None?
      || (job.results.Payload? && (job.results.solutions == Present([]) || job.results.solutions.NullEntry?))
    case Failed => parse(QuotesNormalised(job.errorText)).None?
    case Cancelled => job.cancellationTime.None?
    case Executing => job.beginExecutionTime.None?
    case _ => false
  }

  /** The URI fields: the input URI cut at its first `?`; when the input URI is
      None the split raises, the handler catches it, and both fields are None. */
  predicate UrisNormalised(job: JobInfo, d: JobDetails)
  {
    match job.inputDataUri
    case None => d.inputDataUri.None? && d.outputDataUri.None?
    case Some(u) =>
      && d.inputDataUri.Some?
      && d.inputDataUri.value <= u
      && '?' !in d.inputDataUri.value
      && (|d.inputDataUri.value| < |u| ==> u[|d.inputDataUri.value|] == '?')
      && d.outputDataUri == job.outputDataUri
  }

  /** The `cost` and `parameters` of a Succeeded job. Parameters are the value
      of `input_params` when that key is present (None when it is null), else of
      `parameters`, else None; the cost is the first solution's. A RuntimeError
      from the service gives None for both; a KeyError on the cost gives None
      for the cost only. An empty solution list raises IndexError and a null
      one TypeError, which nothing here catches. */
  function SucceededOutcome(res: Results): (r: Result<Outcome>)
    ensures r.Err? <==> res.Payload? && (res.solutions == Present([]) || res.solutions.NullEntry?)
    ensures r.Err? ==> r.fault == (if res.solutions.NullEntry? then TypeError else IndexError)
    ensures r.Ok? ==> r.value.Solved?
    ensures r.Ok? && res.RuntimeFailure? ==> r.value == Solved(None, None)
    ensures r.Ok? && res.Payload? ==>
      && (r.value.parameters.Some? <==>
            res.inputParams.Present? || (res.inputParams.Missing? && res.parameters.Present?))
      && (res.inputParams.Present? ==> r.value.parameters == Some(res.inputParams.value))
      && (res.inputParams.Missing? && res.parameters.Present? ==> r.value.parameters == Some(res.parameters.value))
      && (r.value.cost.Some? <==> res.solutions.Present? && res.solutions.value[0].cost.Present?)
      && (r.value.cost.Some? ==> r.value.cost.value == res.solutions.value[0].cost.value)
  {
    match res
    case RuntimeFailure => Ok(Solved(None, None))
    case Payload(inputParams, parameters, solutions) =>
      var params := if !inputParams.Missing? then inputParams.AsOption() else parameters.AsOption();
      match solutions
      case Missing => Ok(Solved(None, params))
      case NullEntry => Err(TypeError)
      case Present(list) =>
        if |list| == 0 then Err(IndexError) else Ok(Solved(list[0].cost.AsOption(), params))
  }

  /** `get_job_details(job, solver, problem, experiment)`. */
  function GetJobDetails(job: JobInfo, ctx: Context, parse: JsonParser): (r: Result<JobDetails>)
    ensures r.Err? <==> DetailsRaise(job, parse)
    ensures r.Ok? ==>
      && r.value.id == job.id
      && r.value.target == job.target
      && r.value.status == job.status
      && r.value.creationTime == job.creationTime
      && r.value.context == ctx
      && UrisNormalised(job, r.value)
    ensures r.Ok? && job.status.Succeeded? ==> Ok(r.value.outcome) == SucceededOutcome(job.results)
  {
    var c := job.creationTime;
    var base := JobDetails(
      job.id, job.target, job.status, c,
      if job.inputDataUri.Some? then Some(Text.BeforeFirst(job.inputDataUri.value, '?')) else None,
      if job.inputDataUri.Some? then job.outputDataUri else None,
      ctx, None, None, None, NoOutcome);
    match job.status
    case Succeeded =>
      if job.beginExecutionTime.None? || job.endExecutionTime.None? then Err(TypeError)
      else
        var b := job.beginExecutionTime.value;
        var e := job.endExecutionTime.value;
        var o :- SucceededOutcome(job.results);
        Ok(base.(executionTime := Some(Seconds(e - b)), queueTime := Some(Seconds(b - c)),
                 totalTime := Some(Seconds(e - c)), outcome := o))
    case Failed =>
      var timed :=
        if job.beginExecutionTime.Some? && job.endExecutionTime.Some? then
          var b := job.beginExecutionTime.value;
          var e := job.endExecutionTime.value;
          base.(executionTime := Some(Seconds(e - b)), queueTime := Some(Seconds(b - c)),
                totalTime := Some(Seconds(e - c)))
        else base;
      (match parse(QuotesNormalised(job.errorText))
       case None => Err(DecodeError)
       case Some(data) => Ok(timed.(outcome := Errored(data))))
    case Cancelled =>
      if job.cancellationTime.None? then Err(TypeError)
      else
        var x := job.cancellationTime.value;
        var timed :=
          if job.beginExecutionTime.Some? then
            var b := job.beginExecutionTime.value;
            base.(executionTime := Some(Seconds(x - b)), queueTime := Some(Seconds(b - c)))
          else base;
        Ok(timed.(totalTime := Some(Seconds(x - c))))
    case Executing =>
      if job.beginExecutionTime.None? then Err(TypeError)
      else Ok(base.(queueTime := Some(Timedelta(job.beginExecutionTime.value - c))))
    case _ => Ok(base)
  }

  /** The record has the base keys plus exactly the keys its status calls for. */
  lemma KeysByStatus(job: JobInfo, ctx: Context, parse: JsonParser)
    requires GetJobDetails(job, ctx, parse).Ok?
    ensures BaseKeys <= Keys(GetJobDetails(job, ctx, parse).value)
    ensures Keys(GetJobDetails(job, ctx, parse).value) == BaseKeys + StatusKeys(job)
  {
  }

  /** The durations are differences of the job's own timestamps, status by status. */
  lemma TimingsByStatus(job: JobInfo, ctx: Context, parse: JsonParser)
    requires GetJobDetails(job, ctx, parse).Ok?
    ensures var d := GetJobDetails(job, ctx, parse).value;
      var c := job.creationTime;
      match job.status
      case Succeeded =>
        var b := job.beginExecutionTime.value;
        var e := job.endExecutionTime.value;
        && d.queueTime == Some(Seconds(b - c))
        && d.executionTime == Some(Seconds(e - b))
        && d.totalTime == Some(Seconds(e - c))
      case Failed =>
        if job.beginExecutionTime.Some? && job.endExecutionTime.Some? then
          var b := job.beginExecutionTime.value;
          var e := job.endExecutionTime.value;
          && d.queueTime == Some(Seconds(b - c))
          && d.executionTime == Some(Seconds(e - b))
          && d.totalTime == Some(Seconds(e - c))
        else d.queueTime.None? && d.executionTime.None? && d.totalTime.None?
      case Cancelled =>
        var x := job.cancellationTime.value;
        && d.totalTime == Some(Seconds(x - c))
        && (if job.beginExecutionTime.Some? then
              var b := job.beginExecutionTime.value;
              d.queueTime == Some(Seconds(b - c)) && d.executionTime == Some(Seconds(x - b))
            else d.queueTime.None? && d.executionTime.None?)
      case Executing =>
        && d.queueTime == Some(Timedelta(job.beginExecutionTime.value - c))
        && d.executionTime.None? && d.totalTime.None?
      case _ =>
        d.queueTime.None? && d.executionTime.None? && d.totalTime.None? && d.outcome.NoOutcome?
  {
  }

  /** Whenever a record carries all three durations in seconds, waiting in the
      queue and executing add up to the total. */
  lemma DurationsAddUp(job: JobInfo, ctx: Context, parse: JsonParser)
    requires GetJobDetails(job, ctx, parse).Ok?
    requires var d := GetJobDetails(job, ctx, parse).value;
      d.queueTime.Some? && d.executionTime.Some? && d.totalTime.Some?
    ensures var d := GetJobDetails(job, ctx, parse).value;
      && d.queueTime.value.Seconds? && d.executionTime.value.Seconds? && d.totalTime.value.Seconds?
      && d.queueTime.value.seconds + d.executionTime.value.seconds == d.totalTime.value.seconds
  {
  }

  /** Only Failed records carry parsed error data, and what was parsed is the
      error payload with its single quotes turned into double quotes. */
  lemma ErrorDataParsed(job: JobInfo, ctx: Context, parse: JsonParser)
    requires GetJobDetails(job, ctx, parse).Ok?
    ensures GetJobDetails(job, ctx, parse).value.outcome.Errored? <==> job.status.Failed?
    ensures job.status.Failed? ==>
      Some(GetJobDetails(job, ctx, parse).value.outcome.errorData) == parse(Text.ReplaceChar(job.errorText, '\'', '"'))
  {
  }
}
