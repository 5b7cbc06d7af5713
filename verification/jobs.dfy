/** What the remote workspace reports about one job, as the experiment engine
    reads it. The workspace itself is an abstract lookup function. */
module Jobs {
  import opened Wrappers
  import Text

  type JobId = string

  /** Solver parameters as the service echoes them. */
  type Params = map<string, string>

  /** A job's lifecycle state. `OtherStatus` carries a name the engine does
      not branch on; the five names above are never reported through it. */
  datatype Status = Waiting | Executing | Succeeded | Failed | Cancelled | OtherStatus(name: string)

  /** The status as `str` renders it in the CSV summary. */
  function StatusName(s: Status): string
  {
    match s
    case Waiting => "Waiting"
    case Executing => "Executing"
    case Succeeded => "Succeeded"
    case Failed => "Failed"
    case Cancelled => "Cancelled"
    case OtherStatus(name) => name
  }

  /** The statuses after which a job no longer changes, which is what the
      service's `has_completed` reports. */
  predicate IsTerminal(s: Status)
  {
    s.Succeeded? || s.Failed? || s.Cancelled?
  }

  /** A parsed JSON value, as `json.loads` returns it. */
  datatype Json =
    | JNull
    | JBool(b: bool)
    | JNumber(text: string)
    | JString(s: string)
    | JArray(items: seq<Json>)
    | JObject(fields: map<string, Json>)

  /** `json.loads`: an opaque parser that may reject its input. */
  type JsonParser = string -> Option<Json>

  /** One key of a JSON object as the engine reads it: missing, present with
      the value null, or present with a value. `"k" in obj` tells `Missing`
      from the other two; `obj["k"]` gives None for `NullEntry`. */
  datatype Entry<T> = Missing | NullEntry | Present(value: T)
  {
    /** `obj["k"]` when the key is there; None stands for both null and missing. */
    function AsOption(): (r: Option<T>)
      ensures r.Some? <==> this.Present?
      ensures r.Some? ==> r.value == this.value
    {
      if this.Present? then Some(this.value) else None
    }
  }

  /** One entry of the `solutions` list; `cost`, when present, holds the
      number as `str` renders it. */
  datatype Solution = Solution(cost: Entry<string>)

  /** What `job.get_results()` gives: a RuntimeError, or a payload whose keys
      `input_params`, `parameters` and `solutions` may each be missing or null. */
  datatype Results =
    | RuntimeFailure
    | Payload(inputParams: Entry<Params>, parameters: Entry<Params>, solutions: Entry<seq<Solution>>)

  /** A job as the workspace returns it. Timestamps are integers (seconds); the
      begin, end and cancellation times may be None. `errorText` is
      `str(job.details.error_data)`. */
  datatype JobInfo = JobInfo(
    id: JobId,
    target: string,
    status: Status,
    creationTime: int,
    beginExecutionTime: Option<int>,
    endExecutionTime: Option<int>,
    cancellationTime: Option<int>,
    inputDataUri: Option<string>,
    outputDataUri: Option<string>,
    errorText: string,
    results: Results)

  /** `workspace.get_job`: a job, or None when the lookup raises. */
  type Workspace = JobId -> Option<JobInfo>

  /** The error payload after every `'` is replaced by `"`, which is the only
      text the engine ever hands to the JSON parser. */
  function QuotesNormalised(errorText: string): (r: string)
    ensures |r| == |errorText|
    ensures '\'' !in r
    ensures forall k :: 0 <= k < |r| && errorText[k] != '\'' ==> r[k] == errorText[k]
    ensures forall k :: 0 <= k < |r| && errorText[k] == '\'' ==> r[k] == '"'
  {
    Text.ReplaceChar(errorText, '\'', '"')
  }
}
