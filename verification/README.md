# Experiment engine and problem library, modelled in Dafny

This project models the batch-experiment engine of the quantum-optimisation
benchmarking tool (`Experiment`) and the random-QUBO helpers of its
`ProblemLibrary`.

An experiment submits every problem to every solver `num_iterations` times.
It keeps a flat `job_id_list` and a nested ledger, `self.experiment`: per
solver, per problem, the ids that were submitted. Later it answers four
questions from the remote workspace:

- whether every job has completed;
- a CSV-style summary with one line per job;
- a flat list of per-job report records, each placed by solver, problem and
  iteration;
- one job's record.

The remote service appears only as functions passed in:

- `SubmitOracle` is `solver.submit(problem)`, keyed by the solver's and the problem's positions in their lists and by the iteration, so equal solvers or problems at different positions may get different jobs;
- `Workspace` is `workspace.get_job`;
- `JsonParser` is `json.loads`;
- `Renderer` is `str` of datetimes and seconds;
- the blob-existence check and the upload are plain functions too.

A Python exception becomes a `Fault` inside a `Result`. An exception that the
source catches and logs becomes the path the source then takes: a skipped job,
a dropped solver, or a None field.

Modules, one per file:

| file | module | what it holds |
|---|---|---|
| `wrappers.dfy` | `Wrappers` | `Option`, `Result`, the `Fault` kinds and their messages |
| `text.dfy` | `Text` | `split("?")[0]`, `replace`, `strip`, `str(int)` and reading it back |
| `jobs.dfy` | `Jobs` | a job as the workspace reports it, statuses, JSON values |
| `ledger.dfy` | `Ledger` | the `Experiment` object and its ledger |
| `submission.dfy` | `Submission` | `submit` and its two helpers |
| `completion.dfy` | `Completion` | `has_completed` |
| `details.dfy` | `Details` | `get_job_details` |
| `flatten.dfy` | `Flatten` | `get_experiment_details` and its three helpers |
| `csv.dfy` | `Csv` | `get_job_details_as_string`, `get_experiment_details_as_string` |
| `problem_library.dfy` | `ProblemLibrary` | `_random_qubo_json`, `_pos_or_neg`, blob names and URIs |
| `properties.dfy` | `Properties` | properties that tie the operations together |

The model keeps the code's behaviour in the places where it is easy to
misread:

- A solver none of whose submissions succeeded is dropped from the ledger
  without any error. Reading the unbound `job` raises, and `submit` catches
  and logs that; no error reaches the caller.
- A failed submission leaves no placeholder in its problem's id list; only
  successful attempts are recorded.
- The `iteration` entry of a record counts the records kept so far for that
  problem. It is not the position of the id: it advances only after a record
  was appended.
- `solver_list_index` and `problem_list_index` advance after every solver and
  every problem, whether or not any of its records were kept.
- A ledger entry with an empty problem list makes the whole of
  `get_experiment_details` raise "Empty problem list". Records gathered for
  earlier solvers are lost. An empty ledger raises the same message.
- For an Executing job, `get_job_details` stores `queue_time` as `str` of a
  timedelta, not as total seconds (`Duration.Timedelta`).

## Model

| member | source | states |
|---|---|---|
| Ledger.NewExperiment | data/msq/Experiment.py:17-27 | A new experiment has no job ids and an empty ledger. It keeps the solvers, problems and iteration count it was given, and its date is the current time passed in. Its id is the caller's when one is given, else the fresh uuid. |
| Submission.SubmitOneProblem | data/msq/Experiment.py:29-56 | Every successful attempt's id is appended to the flat list, in iteration order. The problem's group is appended whatever happened and holds exactly those ids. The returned job is the last successful one, or none. |
| Submission.SuccessesMembership | data/msq/Experiment.py:40-48 | A job is in a problem's id list exactly when some attempt before the bound returned it. |
| Submission.SuccessesFull | data/msq/Experiment.py:40-48 | A problem's list has one entry per iteration exactly when every attempt succeeded. |
| Submission.SuccessesEmpty | data/msq/Experiment.py:40-48 | A problem's list is empty exactly when every attempt failed. |
| Submission.SuccessesPrefix | data/msq/Experiment.py:40-48 | Later iterations only append: the ids of the first i attempts are a prefix of those of the first i' >= i. |
| Submission.LastOfSuccesses | data/msq/Experiment.py:40-56 | The job a problem hands back is from some attempt k, and every later attempt on that problem failed. |
| Submission.SubmitProblems | data/msq/Experiment.py:58-89 | A solver's ids are appended problem by problem. Its entry holds one group per problem and the `input_params` of the last job obtained. The result is UnboundJob when no problem produced a job. |
| Submission.LastOfSolverJobs | data/msq/Experiment.py:67-83 | The job whose parameters a solver's entry records comes from some problem q that produced a job, and no later problem produced one. |
| Submission.LastSuccessfulParams | data/msq/Experiment.py:79-86 | A kept solver's `input_params` are those of submission (q, k), which succeeded. Every later submission of that solver failed, on that problem or a later one. |
| Submission.DroppedIff | data/msq/Experiment.py:58-107 | A solver is left out of the ledger exactly when every one of its submissions failed. This includes an empty problem list and a non-positive iteration count. |
| Submission.SubmitExperiment | data/msq/Experiment.py:91-107 | The loop over solvers yields the experiment described by `Submit`. |
| Submission.Submit | data/msq/Experiment.py:91-107 | `submit` changes only the ledger and the id list. The old ids stay as a prefix, and the ledger has at most one entry per solver. |
| Submission.SubmitShape | data/msq/Experiment.py:49-54 | Every ledger entry has one group per problem, in problem order. Each group echoes its problem's URI and the iteration count and holds at most that many ids. |
| Submission.KeptHaveProblems | data/msq/Experiment.py:65-86 | Every entry `submit` keeps has at least one problem group. |
| Submission.SubmitRecordsLedgerIds | data/msq/Experiment.py:44-45 | `job_id_list` grows by exactly the ids the new ledger holds, in solver, problem, iteration order. |
| Submission.AllSubmissionsSucceed | data/msq/Experiment.py:29-107 | With no failed submission: every solver is kept; every group holds `num_iterations` ids; solvers x problems x iterations ids are added. |
| Completion.HasCompleted | data/msq/Experiment.py:109-121 | The answer is true exactly when every listed job is settled: its lookup fails, or it has reached a terminal status. |
| Completion.CheckCompleted | data/msq/Experiment.py:109-121 | The early-return loop computes `HasCompleted`. On false it has stopped at the first unsettled job, having looked up only the jobs up to that one. |
| Completion.CompletedAppend | data/msq/Experiment.py:109-121 | A list of jobs has completed exactly when both of its parts have. |
| Csv.CostCell | data/msq/Experiment.py:173-174 | The cost column is present exactly when the results carry a non-empty solution list whose first entry has a `cost` key. It is that cost, or "None" when the cost is null. A RuntimeError, a missing key, a null or empty list all raise. |
| Csv.ErrorMessageCell | data/msq/Experiment.py:184-190 | The error message is present exactly when the quote-normalised payload parses to an object whose `message` is a string. The cell is quoted, has no newline inside, and no leading or trailing white space inside the quotes. It is exactly the message with its newlines removed, stripped, in double quotes. |
| Csv.JobCells | data/msq/Experiment.py:149-208 | A line raises exactly when a Succeeded job lacks its begin or end time or its cost raises, a Failed job's error message cannot be read, a Cancelled job lacks its cancellation time, or an Executing job lacks its begin time. Otherwise it has nine columns, starting with creation time, id, target and status. |
| Csv.JobLine | data/msq/Experiment.py:149-208 | A job's line is empty exactly when rendering it raises. Otherwise it is a newline and the nine cells joined by ", ". |
| Csv.NullColumnsByStatus | data/msq/Experiment.py:160-205 | Status by status, which columns hold "null" and which hold which timestamp differences, the cost or the error message. A Cancelled job that began shows its queue time and the time from start to cancellation. |
| Csv.ExperimentDetailsAsString | data/msq/Experiment.py:135-147 | The summary is the header followed by each listed id's line, in `job_id_list` order. An id whose lookup or rendering raises contributes nothing. |
| Csv.LinesAppend | data/msq/Experiment.py:139-145 | Rendering two id lists one after the other is rendering their concatenation. |
| Csv.UnknownIdsRenderNothing | data/msq/Experiment.py:139-145 | Ids whose lookup fails leave the summary at its header. |
| Csv.WaitingJobLine | data/msq/Experiment.py:204-208 | A lone Waiting job gives the header and one line with "null" in all five computed columns. |
| Details.SucceededOutcome | data/msq/Experiment.py:441-472 | Parameters are the value of `input_params` when that key is present (None when it is null), else of `parameters`, else None. A RuntimeError empties both cost and parameters, and a missing key empties the cost. Only an empty solution list (IndexError) or a null one (TypeError) raises. |
| Details.GetJobDetails | data/msq/Experiment.py:341-535 | Building a record raises exactly when the status needs a missing timestamp, the solutions list is empty or null, or the error payload does not parse. A record copies id, target, status, creation time and context. Its input URI is the job's URI cut at the first `?`, and both URIs are None when the input URI is. A Succeeded record's cost and parameters are the outcome the results give. |
| Details.KeysByStatus | data/msq/Experiment.py:421-535 | A record's keys are the nine base keys plus exactly the duration and outcome keys its status and timestamps call for. |
| Details.TimingsByStatus | data/msq/Experiment.py:433-529 | Status by status, each duration is the difference of the right two timestamps, and absent durations are absent keys. |
| Details.DurationsAddUp | data/msq/Experiment.py:433-489 | When a record has all three durations, they are in seconds, and queue time plus execution time equals total time. |
| Details.ErrorDataParsed | data/msq/Experiment.py:491-498 | Exactly Failed records carry error data, and it is the parse of the payload with single quotes replaced by double quotes. |
| Flatten.ReportedMembership | data/msq/Experiment.py:221-234 | An id's record is kept exactly when the id is listed and reportable: looked up, and described without raising. |
| Flatten.ReportedAppend | data/msq/Experiment.py:221-234 | The kept ids of two lists one after the other are the kept ids of each, in order. |
| Flatten.ReportedAll | data/msq/Experiment.py:221-234 | Every id is kept exactly when every id is reportable. |
| Flatten.Fetch | data/msq/Experiment.py:222-226 | One id contributes a record exactly when it is reportable. That record is what `get_job_details` builds for the job in the given context. |
| Flatten.IterationRecords | data/msq/Experiment.py:210-235 | There is one record per kept id. Record i carries the problem's context with `iteration` equal to the starting value plus i. |
| Flatten.IterationDescribes | data/msq/Experiment.py:221-229 | Record i of a problem is the record of its i-th kept id. |
| Flatten.IterationOrdered | data/msq/Experiment.py:227-229 | Within one problem the records are in strictly increasing iteration order. |
| Flatten.ProblemRecords | data/msq/Experiment.py:237-278 | A solver's records describe its kept ids, problem by problem, in (problem, iteration) order. Each record is placed at its solver and at a problem index from the starting one on. |
| Flatten.SolverRecords | data/msq/Experiment.py:280-315 | The walk raises "Empty problem list" exactly when some remaining solver has no problems. Otherwise the records describe the kept ledger ids in ledger order, each well placed and ordered. |
| Flatten.Frame | data/msq/Experiment.py:252-265 | The context built for problem pi of solver si names that solver index and that problem index, at iteration 0. |
| Flatten.FramePlaced | data/msq/Experiment.py:252-265 | Each iteration of a frame below its group's id count is a context the ledger places. |
| Flatten.GetExperimentDetails | data/msq/Experiment.py:317-339 | It raises "Empty problem list" exactly when the ledger is empty or some entry has no problems. Otherwise it gives one record per kept ledger id, in (solver, problem, iteration) order. Each record's context names a solver entry and a problem group that exist, with an iteration below that group's id count. |
| Flatten.RecordPlacement | data/msq/Experiment.py:237-339 | The record at the offset of problem pi of solver si, plus i, exists. Its context is that group's frame at iteration i, and it describes the group's i-th kept id. |
| Properties.FreshExperiment | data/msq/Experiment.py:17-27 | A fresh experiment has completed, its summary is the header alone, and its details raise "Empty problem list". |
| Properties.FreshSubmitWalksAgree | data/msq/Experiment.py:91-107 | After one `submit` on a fresh experiment, the flat id list and the ledger list the same ids in the same order. |
| Properties.ResubmitForgetsLedger | data/msq/Experiment.py:91-107 | A second `submit` replaces the ledger but appends to `job_id_list`, which then holds both batches. |
| Properties.SubmittedDetailsFail | data/msq/Experiment.py:317-339 | On a ledger left by `submit`, `get_experiment_details` raises exactly when no solver was kept. |
| Properties.CompletionAfterSubmit | data/msq/Experiment.py:109-121 | After a `submit`, the experiment has completed exactly when it had before and every new job is settled. |
| Properties.EndToEndCount | data/msq/Experiment.py:317-339 | With every submission succeeding and every job reportable, a fresh experiment's details hold solvers x problems x iterations records. |
| Text.BeforeFirst | data/msq/Experiment.py:411 | `split(c)[0]` is a prefix without `c`, followed in the input by `c` or by nothing. |
| Text.StripIsSlice | data/msq/Experiment.py:189 | `strip()` keeps one slice of the input, and everything cut on either side is white space. |
| Text.StripIdempotent | data/msq/Experiment.py:189 | Stripping twice is stripping once. |
| Text.RemoveChar | data/msq/Experiment.py:188 | Removing a character leaves every other character, with its count, and none of the removed one. |
| Text.RemoveCharAppend | data/msq/Experiment.py:188 | Removing from a concatenation is removing from each part, so the kept characters stay in order. |
| Text.RemoveCharSingle | data/msq/Experiment.py:188 | A single character is dropped when it is the removed one and kept otherwise. |
| Text.RemoveCharAbsent | data/msq/Experiment.py:188 | A text without the character is left unchanged. |
| Jobs.QuotesNormalised | data/msq/Experiment.py:184 | Replacing single quotes keeps the length, turns every single quote into a double quote, and leaves every other character in place. |
| Text.IntToStringRoundTrip | data/msq/ProblemLibrary.py:105 | `str` of an integer reads back as the same integer. |
| ProblemLibrary.GetProblemByBlobName | data/msq/ProblemLibrary.py:22-33 | The problem's name is "o_prob_" followed by the blob name. Its URI is the container URI up to its first `?`, then "/" and the blob name. |
| ProblemLibrary.SasTokenDropped | data/msq/ProblemLibrary.py:28-29 | A query string on the container URI is dropped, and a URI without one is kept whole. |
| ProblemLibrary.PosOrNeg | data/msq/ProblemLibrary.py:36-40 | The sign is +1 exactly when the draw is below 0.5, and -1 otherwise. |
| ProblemLibrary.RandomQuboJson | data/msq/ProblemLibrary.py:43-84 | The metadata name, kind and version are fixed. No terms for n <= 0. Otherwise the constant comes first, then one term per upper-triangle entry in visiting order, each signed by the `_pos_or_neg` call its position names. |
| ProblemLibrary.UpperPairsCount | data/msq/ProblemLibrary.py:62-63 | The loops visit n(n+1)/2 entries. |
| ProblemLibrary.UpperPairsMembership | data/msq/ProblemLibrary.py:62-63 | An entry (i, j) is visited exactly when 0 <= i <= j < n. |
| ProblemLibrary.UpperPairsSorted | data/msq/ProblemLibrary.py:62-63 | Entries are visited in strictly increasing row-major order, so none twice. |
| ProblemLibrary.TermIdsWellFormed | data/msq/ProblemLibrary.py:65-72 | A diagonal term names one variable and any other names two increasing ones, all below n. |
| ProblemLibrary.BlobNameSizeRoundTrip | data/msq/ProblemLibrary.py:93 | Both default blob names end in the size, and it reads back. |
| ProblemLibrary.GenerateBlobName | data/msq/ProblemLibrary.py:92-93 | The name uploaded under is never empty. A given name is kept. An empty one becomes the uuid, "_random_qubo_" and the size. |
| ProblemLibrary.IfNotExistsBlobName | data/msq/ProblemLibrary.py:104-105 | A given name is kept. An empty one becomes "random_qubo_" and the size, so the result is never empty. |
| ProblemLibrary.GenerateRandomQuboIfNotExists | data/msq/ProblemLibrary.py:101-122 | It returns the resolved name. The URI comes from the upload when no blob of that name exists, and otherwise is the one built from the container URI. |

## Left out

- `wait_until_completed` (Experiment.py:123-133) only blocks on the service. It computes nothing.
- Logging, and the `logger` configuration, are not modelled.
- The workspace, `solver.submit`, `job.get_results`, `json.loads`, `uuid.uuid4`,
  `datetime.now` and the blob container are passed in as functions or values.
  Their internals are not part of this model.
- `upload_problem` (ProblemLibrary.py:125-145) gzips and uploads through the SDK. It is the `upload` parameter here.
- `numpy`'s random draws are inputs (`Draws`). The coefficient ranges of `np.random.uniform` are not constrained.
- Floating point is not modelled. Coefficients are reals, timestamps are whole seconds, and `str` of a float or datetime is an abstract `Renderer`.
- `Polynomial.py` and the Azure manager modules are not part of this model.
- A solver's type name is taken as given (`Solver.className`). How `type(solver)` builds it is not modelled.
- `job.has_completed()` belongs to the service SDK. It is modelled as "the status is Succeeded, Failed or Cancelled".
- Ledger.NewExperiment: the default `num_iterations=1` is not modelled; the
  iteration count is always an argument. The date is the time passed in,
  already marked as UTC. The constructor as written raises NameError at
  Experiment.py:27, because the `azure_config` import is commented out at
  Experiment.py:4; the model takes the workspace as a parameter instead.
- JSON values of an unexpected type in the results payload (a `solutions`
  value that is not a list, a solution that is not an object, parameters that
  are not an object) are not modelled. A key is missing, null, or holds a
  value of the expected type.
- Text.StripIsSlice: covers only `str.strip()` with no argument. Python's white-space
  set is modelled as the fixed list of code points `str.isspace` accepts.
