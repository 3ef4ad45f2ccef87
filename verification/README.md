# Sentiment pipeline orchestrator and its telemetry store

This project models the core of a small text-analysis pipeline. The `Orchestrator` takes an
input text through four named stages in a fixed order:

1. `tokenization`
2. `embedding_generation`
3. `sentiment_analysis`
4. `post_processing`

Each stage runs under a stop-after-N-attempts retry policy and leaves exactly one step record.
A run aborts at the first stage that still fails once its attempts are used up. Whether it
returns or raises an ordinary exception, it is finished in the `Metrics` telemetry store. That store keeps:
- one slot for the run in flight;
- per-step counters (`total`, `success`, `failure`);
- a bounded history of the last 50 finished runs.

It derives a summary (totals and success rates) and a history view from them.

The model is functional. The store is an immutable `Metrics` value, and every store operation
returns the new store. A model-backed stage (tokenizer, embedding model, classifier) is a
function of its input and its 0-based call number. The result of each call is an `Attempt`
that either returned a value or raised; `Raised(message)` carries the description of that
failed call. The call number stands for whatever outside
state makes a retried call behave differently. `ProcessText` returns a `Run`, which holds:
- the store afterwards;
- the returned result or raised error;
- the record pushed into the history;
- the trace of stages the run went through.

`PlanRun` is an independent reference definition of what a run does with the telemetry left
out. `ProcessText` is proved to agree with it. `FirstFailure` is a second, smaller reference: it names the first
model-backed stage whose retries end in a raise, together with that stage's last failure.

Files:
- `wrappers.dfy`: `Option` and `Result`.
- `history.dfy` (`BoundedHistory`): the bounded FIFO buffer behind `deque(maxlen=50)`.
- `monitoring.dfy` (`Monitoring`): the telemetry store.
- `retry.dfy` (`RetryPolicy`): the attempt bound of the retry decorator and the exception it raises once the attempts are used up.
- `pipeline.dfy` (`Pipeline`): the orchestrator.

Behaviour of the code worth knowing:
- **Success rate.** It is computed as `successful / total` when `total > 0`, else `0`. So it is
  also zero when there were runs but none succeeded; a zero rate does not mean an empty
  history.
- **Starting a run.** `start_execution` replaces any run already in flight instead of failing.
- **Status strings.** `record_step` counts whatever status string it is given. The orchestrator
  passes only `"success"` and `"failure"`. Any other string breaks
  `total == success + failure`, and the string `"total"` raises the total twice (`Monitoring.Bump`).
- **Recording with no run.** `record_step` and `finish_execution` do nothing when no run is in
  flight.
- **Error kept on a finished run.** The error is kept only when it is present and non-empty
  (Python truthiness).
- **Error text of a failed run.** The retry decorator is not set to re-raise. So a stage that
  uses up its attempts raises the decorator's `RetryError`, whose text names it and describes
  the last failed call. That text is never empty, so every failed run keeps an error.

## Model

| member | source | states |
|---|---|---|
| BoundedHistory.Newest | src/monitoring.py:11 | keeps the `cap` most recent items in arrival order, all of them when there are fewer |
| BoundedHistory.Push | src/monitoring.py:44 | appending to a buffer bounded by `cap` gives length min(n+1, cap), puts the new item last, drops nothing when there is room, and keeps the other survivors in order |
| BoundedHistory.PushEvictsOldest | src/monitoring.py:11 | at capacity 50, appending to a full history drops exactly its oldest run, appending with room drops nothing, and the bound of 50 is kept |
| BoundedHistory.NewestAbsorbs | src/monitoring.py:11 | cutting a buffer to its newest `cap` items and then adding more leaves the same items as never cutting |
| BoundedHistory.PushAllKeepsMostRecent | src/monitoring.py:44 | after any series of appends the history holds exactly the most recent `cap` runs ever appended, in arrival order, never more than `cap` |
| Monitoring.Init | src/monitoring.py:10-13 | a fresh store has an empty history, no counters, no run in flight, and satisfies the store invariant |
| Monitoring.Preview | src/monitoring.py:17 | an input of up to 50 characters is kept whole; a longer one becomes its first 50 characters followed by "..." |
| Monitoring.StartExecution | src/monitoring.py:15-21 | the run in flight becomes a running run with the shortened input and no steps, replacing any earlier one; history and counters are untouched |
| Monitoring.Bump | src/monitoring.py:32-33 | `total` rises by one, then the counter named by the status rises, so "success" and "failure" raise their count and "total" raises the total twice |
| Monitoring.BumpBalancedIff | src/monitoring.py:32-33 | a balanced counter stays balanced after a step exactly when the status is "success" or "failure"; success+failure <= total survives any status |
| Monitoring.RecordStep | src/monitoring.py:23-33 | with a run in flight, appends the step to it and counts it under its name, leaving every other name's counters and the history alone; with none, changes nothing; keeps the store invariant for the two outcome statuses |
| Monitoring.RecordStepCounts | src/monitoring.py:32-33 | recording a success or failure raises that step's total by one and exactly the matching outcome count by one; every other name is unchanged |
| Monitoring.RecordStepTallies | src/monitoring.py:23-33 | while a run is in flight, its counters equal the tally of its steps on top of the counters at its start, and recording keeps that so |
| Monitoring.TallyCounts | src/monitoring.py:32-33 | counting a series of success/failure steps raises each name's success and failure counts by its number of such steps, and its total by their sum |
| Monitoring.TallyBalanced | src/monitoring.py:32-33 | counting only successes and failures keeps total == success + failure for every step name |
| Monitoring.Finished | src/monitoring.py:37-42 | the finished run keeps its text and steps, takes the given status, and takes the error only when one was given and it is non-empty |
| Monitoring.FinishExecution | src/monitoring.py:35-45 | with a run in flight, pushes it with its final status onto the bounded history, clears the slot and leaves the counters alone; with none, changes nothing; keeps the store invariant |
| Monitoring.FinishAppendsOne | src/monitoring.py:35-45 | the history grows by one (to at most 50) at its newest end with the given status, text and steps, has an error exactly when a non-empty one was given, and loses its oldest run when full |
| Monitoring.Rate | src/monitoring.py:54 | the rate is zero for an empty whole, otherwise it times the whole equals the part, and lies in [0, 1] when the part does not exceed the whole |
| Monitoring.CountSuccessful | src/monitoring.py:52 | the number of successful runs never exceeds the number of runs |
| Monitoring.CountSuccessfulAppend | src/monitoring.py:52 | the count of successful runs adds up over a split of the history |
| Monitoring.CountSuccessfulAll | src/monitoring.py:52-53 | every run is counted as successful exactly when every run's status is "success", i.e. no run counts as failed |
| Monitoring.GetSummary | src/monitoring.py:47-72 | total is the history length, successful the number of "success" runs, failed the rest; the rates obey the zero-for-empty rule and lie in [0, 1]; step stats have exactly the counter names and copy their counts |
| Monitoring.EmptySummary | src/monitoring.py:47-72 | a fresh store summarises to all zeros with no step statistics |
| Monitoring.GetExecutionHistory | src/monitoring.py:96-107 | lists the stored runs oldest first, each with the same text, status, steps and error |
| RetryPolicy.AttemptBound | src/pipeline.py:22 | stopping after attempt N allows N calls for N >= 1, and always at least one |
| RetryPolicy.RetryFrom | src/pipeline.py:21-30 | from call k on, the policy makes at most the bound of calls; the result is that of its last call; all earlier calls raised; it gives up only at the bound |
| RetryPolicy.Retry | src/pipeline.py:21-30 | makes between 1 and the bound of calls; returns the value of the first call that returned; every earlier call raised; a raise is final only after the bound |
| RetryPolicy.RetrySucceedsIff | src/pipeline.py:21-30 | the policy ends with a value exactly when one of the allowed calls returns, and then it stopped at the first such call |
| RetryPolicy.SingleAttemptNoRetry | src/pipeline.py:22 | with one attempt allowed, the first call's outcome is final |
| RetryPolicy.RunWithRetry | src/pipeline.py:29-35 | the call-until-return loop computes exactly `Retry` |
| RetryPolicy.RetryErrorText | src/pipeline.py:21-28 | the exception raised once the attempts are used up has a never-empty text starting with "RetryError[" |
| RetryPolicy.LastFailureOf | src/pipeline.py:21-28 | reading the last failure back out of an exception text, when it has the wrapper's shape |
| RetryPolicy.LastFailureRoundTrip | src/pipeline.py:21-28 | the exception text gives back exactly the description of the last failed call that it wraps |
| RetryPolicy.RetryErrorTextInjective | src/pipeline.py:21-28 | different descriptions of the last failed call give different exception texts |
| Pipeline.PostProcess | src/pipeline.py:89-99 | the result repeats the input and its length, the token width, the embedding dimension, the label and confidence, with status "success" |
| Pipeline.PostProcessOnce | src/pipeline.py:71-80 | the post-processing stage returns on its first call, so it is called once |
| Pipeline.StepStatus | src/pipeline.py:37-42 | a stage's step is "success" exactly when the retried stage returned, and "failure" otherwise |
| Pipeline.ProcessStep | src/pipeline.py:20-43 | runs the stage under the retry policy and records exactly one step for it, a success exactly when some allowed call returns; with no run in flight the store is unchanged; keeps the store invariant |
| Pipeline.Abort | src/pipeline.py:85-87 | a failed run leaves nothing in flight, keeps the counters, pushes one record onto the bounded history with the run's text and steps and status "failure", and raises the retry exception's text, which the record keeps as its error |
| Pipeline.Complete | src/pipeline.py:82-83 | a run whose stages all returned leaves nothing in flight, keeps the counters, pushes one record with the run's text and steps and status "success" and no new error, and returns the result |
| Pipeline.StagePrefixExtend | src/pipeline.py:49-68 | after k successful stages, recording stage k gives the first k+1 stages in order, failing only at the last when its status is "failure" |
| Pipeline.Advance | src/pipeline.py:49-68 | recording the next stage of a run with no failure so far keeps the run in flight, keeps the history, and keeps the counters equal to the tally of the run's steps |
| Pipeline.AbortEnds | src/pipeline.py:85-87 | a run aborted at its failing stage ends with nothing in flight, one record pushed, counters moved by its steps, status "failure", and the raised (never empty) retry exception text as its error |
| Pipeline.CompleteEnds | src/pipeline.py:82-83 | a run that passed all four stages ends with nothing in flight, one record pushed, counters moved by its four successful steps, and status "success" |
| Pipeline.EndsValid | src/pipeline.py:45-87 | a finished run leaves a store with at most 50 runs and balanced counters if it started from one |
| Pipeline.ProcessText | src/pipeline.py:45-87 | returns or raises exactly what the telemetry-free plan says, goes through the stages it lists, pushes one record (dropping the oldest only at 50), moves the counters by exactly the run's steps, and keeps the store invariant |
| Pipeline.TokenizationStage | src/pipeline.py:49-54 | from stage 1 on, the run agrees with the plan and ends as described, raising the retry exception around the tokenizer's last failure if its attempts are used up |
| Pipeline.EmbeddingStage | src/pipeline.py:56-61 | the embedding stage is handed the tokens; from it on the run agrees with the plan and ends as described |
| Pipeline.SentimentStage | src/pipeline.py:63-68 | the classifier is handed the raw input, not the tokens; from it on the run agrees with the plan and ends as described |
| Pipeline.PostProcessingStage | src/pipeline.py:70-83 | post-processing gets the input, tokens, embeddings and sentiment, is called once, and the run returns its record as a success |
| Pipeline.PlanStages | src/pipeline.py:45-87 | a run goes through between one and four stages in the fixed order, calls each between 1 and the attempt bound times, and returns exactly when it reached all four |
| Pipeline.PlanDataFlow | src/pipeline.py:45-87 | each stage is handed its input; the run gets past a stage exactly when the stage's retries end with a value, and otherwise raises the retry exception around that stage's last failure, with later stages never called |
| Pipeline.ProcessTextSucceedsIff | src/pipeline.py:45-87 | a run returns exactly when each model-backed stage has an allowed call that returns on its input; the result carries the input, its length and the classifier's label and confidence |
| Pipeline.ProcessTextFailureRecorded | src/pipeline.py:45-87 | `FailureShape`: a run raises exactly when `FirstFailure` finds a model-backed stage that used up its attempts; that stage is the last in the trace; the raised text is the retry exception around that stage's last failure, is never empty and gives that failure back; the record is "failure" and keeps the text as its error |
| Pipeline.RunFailureRecorded | src/pipeline.py:85-87 | any run meeting the orchestrator's contract has the `FailureShape` that `ProcessTextFailureRecorded` states |
| Pipeline.PlanFailure | src/pipeline.py:45-87 | a plan fails exactly when `FirstFailure` finds a stage, and then its last stage is that stage and it raises the retry exception around that stage's last failure |
| Pipeline.ProcessTextSteps | src/pipeline.py:45-87 | `StepShape`: the run's record holds one step per stage reached, one to four, in order and under the stage's name; all succeeded but the last, which failed exactly when the run raised; a returning run reached all four |
| Pipeline.RunSteps | src/pipeline.py:45-87 | any run meeting the orchestrator's contract has the `StepShape` that `ProcessTextSteps` states |
| Pipeline.StageNamesDistinct | src/pipeline.py:51-72 | the four stage names are pairwise different |
| Pipeline.OccurrencesInRun | src/pipeline.py:49-80 | in a run's steps each reached stage name occurs once, as a failure only for the stage that failed the run |
| Pipeline.ProcessTextCounts | src/pipeline.py:45-87 | `CountShape`: a run raises the total of each stage it reached by one, raises the failure count of the stage that failed, the success count of every other reached stage, and moves no other counter |
| Pipeline.RunCounts | src/pipeline.py:45-87 | any run ending as the orchestrator's runs do moves the counters as `CountShape` states |
| Pipeline.ExamplePositive | src/pipeline.py:89-99 | a classifier answering POSITIVE with 0.95 on "I love this food!" yields a success record of length 17 with that label and confidence, after four steps |
| Pipeline.ExampleRetryThenSucceed | src/pipeline.py:20-43 | with three attempts, an embedding stage that raises twice and then returns is called three times and leaves one successful step |
| Pipeline.ExampleExhausted | src/pipeline.py:85-87 | with three attempts, a classifier whose every call fails with the description "model unavailable" fails the run after two successful steps and one failed step, raising the retry exception around that description and keeping it as the run's error |
| Pipeline.ClassifierDownRun | src/pipeline.py:63-87 | with three attempts allowed, whenever every tokenizer and embedding call returns and every classifier call fails with the same description, the run calls the classifier three times, records success, success, failure, and raises the retry exception around that description, which the record keeps as its error |
| Pipeline.ClassifierDownPlan | src/pipeline.py:63-68 | in that situation the plan stops after three stages with the classifier called three times and raises the retry exception around the description of its last failure |

## Left out

- Clock readings are not modelled: start and end times, durations, per-step timestamps and the timestamp in the result record. They are wall-clock reads and carry no logic beyond being stored.
- Host resource sampling in `get_summary` (CPU, memory, GPU via psutil and GPUtil, degrading to zero on failure) is not modelled. It is outside input from the host.
- Exponential backoff waits between attempts are not modelled. They change timing only, not which calls are made.
- RetryPolicy.RetryErrorText: the retry exception's text is `RetryError[` + description + `]`, where the description is the string carried by the last call's `Raised(message)`. In the source the bracketed part is the repr of the last attempt's future, which names the exception class and an object address but not the exception's own message. This model does not fix the shape of that repr: `Raised(message)` stands for the whole description of the failed call, and the round trip and injectivity lemmas are about that description. The object address cannot be derived from the program.
- Reading the YAML configuration is not modelled. The attempt limit is a parameter of `ProcessText`, and the backoff settings are unused since waits are left out.
- The model internals in `src/model.py` (tokenizer, embedding model, classifier) are not modelled. They are foreign library calls, represented by the functions in `Action`.
- Tensor shapes are opaque numbers: `input_ids.shape[1]` is `Tokens.inputIdsWidth` and `embeddings.shape[0]` is `Embedding.dim`.
- Pipeline.PostProcess: assumed never to raise. The source reads keys that the earlier stages always supply, so a failing post-processing step is not modelled.
- Monitoring.Rate: the success rate is an exact rational number, not a double-precision float, so rounding is not modelled.
- Concurrent use of one store by several callers is not modelled. The source has no locking, and every operation here is a single atomic step.
- The Streamlit dashboard (`dashboard.py`) is not modelled. It only displays the summary and the history and calls `process_text`.
- Monitoring.GetExecutionHistory: the copied entries leave out the duration and timestamp fields, since clocks are not modelled.
- Monitoring.GetSummary: the per-step counters are a map, so the order in which step names were first recorded (kept by the source's dictionary and used when listing step statistics) is not modelled. Only the set of names and their counts are.
- Exceptions outside Python's `Exception` hierarchy (`KeyboardInterrupt`, `SystemExit`) are not modelled. `Raised` stands only for exceptions derived from `Exception`. The others get past both `except Exception` handlers, so no step is recorded for them and the run stays in flight.
