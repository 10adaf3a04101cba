# Deep-research service: a Dafny model

This project models the core of a deep-research service: a four-phase research
pipeline (planning, parallel web-search gathering, synthesis, verification)
driven by language-model agents. The model also covers:

- the HTTP and server-sent-event (SSE) front end that runs the pipeline and
  hides internal error text from clients;
- the SSE event records and their wire framing;
- the structured-logging field processor and its human-readable formatter;
- the demo fixture served in demo mode;
- the proof-of-concept runner, which uses older agent models, its
  Markdown report, the batch evaluation runner, and the two 100-question test
  datasets.

Everything is pure functional Dafny. The agents, the clock, the completion
order of the concurrent searches, random sampling and the process environment
are all parameters:

- an agent is a function from its prompt data to an `Outcome`, either
  `Succeeded(output)` or `Failed(reason)`;
- the clock is a function from reading index to seconds;
- the completion order of concurrent searches is a permutation of the step
  indices;
- `random.sample` is a permutation of the dataset's indices.

Pydantic model dumping and validation are modelled over a JSON value tree
(`JsonValue.Json`). Turning JSON into text (`json.dumps`) is a parameter.

Modules follow the source files:

| module | file |
|---|---|
| `Models` | src/models.py |
| `PocModels` | research/models.py |
| `Exceptions` | src/exceptions.py |
| `Workflow` | src/workflow.py |
| `Events` | src/events.py |
| `Server` | src/server.py, the request path and error handling |
| `Stream` | src/server.py, the `event_generator` loop |
| `Logging` | src/logging.py |
| `Demo` | src/demo.py |
| `PocRunner` | research/run_research.py |
| `Datasets` | research/test_dataset.py and research/evaluation_dataset.py, the operations |
| `QuestionBank` | research/test_dataset.py and research/evaluation_dataset.py, the question data |
| `BatchRunner` | research/batch_runner.py |

`Outcomes`, `Text`, `JsonValue` and `Sequences` hold the shared helpers: result
types, Python string operations, the JSON tree and `FlatMap`.

Three behaviours of the code shape the model:

- Production search results are collected in the order the searches
  complete, not in plan order. `Workflow.CompletionOrderWitness` shows that
  the two orders differ.
- The blocking workflow emits no `phase_warning` when only some searches
  fail. Those failures are only counted and logged.
- The heartbeat is a `: keepalive` SSE comment sent from inside the stream
  loop whenever the 30-second interval has passed. It is not a separate task
  that sends timestamped `heartbeat` events.

## Model

| member | source | states |
|---|---|---|
| Models.SearchStepFromJson | src/models.py:6-18 | a step is accepted exactly when both text fields are present strings of length at least 1 |
| Models.PlanFromJson | src/models.py:21-52 | an accepted plan has between 1 and 5 valid steps; a step list outside 1..5 is rejected |
| Models.SearchResultFromJson | src/models.py:55-76 | missing `findings`/`sources` default to empty lists; the query is read back unchanged |
| Models.ReportFromJson | src/models.py:79-118 | missing key findings and sources default to empty lists and a missing `limitations` to the empty string |
| Models.ValidationFromJson | src/models.py:121-143 | an accepted validation has confidence in [0, 1]; a confidence outside it is rejected; list fields default to empty |
| Models.TimingsFromJson | src/models.py:146-173 | accepted phase timings are all non-negative |
| Models.ResultFromJson | src/models.py:176-198 | an accepted research result is valid (query of length at least 1, valid plan, validation and timings) |
| Models.ResultFromParts | src/models.py:176-198 | a result is built exactly when every part is present and the query is non-empty |
| Models.SearchStepRoundTrip | src/models.py:6-18 | dumping a step and validating it back gives the step exactly when it satisfies the field constraints |
| Models.PlanRoundTrip | src/models.py:21-52 | dump-then-validate gives back every valid plan and rejects every invalid one |
| Models.SearchResultDefaults | src/models.py:62-76 | a search result given only its query validates with empty findings and sources |
| Models.SearchResultRoundTrip | src/models.py:55-76 | every search result survives dump-then-validate |
| Models.ReportRoundTrip | src/models.py:79-118 | every report survives dump-then-validate |
| Models.ValidationRoundTrip | src/models.py:121-143 | dump-then-validate gives back exactly the validations whose confidence is in [0, 1] |
| Models.TimingsRoundTrip | src/models.py:146-173 | dump-then-validate gives back exactly the timings with no negative field |
| Models.ResultRoundTrip | src/models.py:176-198 | a whole research result survives dump-then-validate exactly when it is valid |
| Models.SearchResultsRoundTrip | src/models.py:187-189 | a list of search results survives dump-then-validate |
| Models.ResultCountIndependentOfSteps | src/models.py:176-198 | validity does not tie the number of search results to the number of plan steps |
| PocModels.PocSearchStepFromJson | research/models.py:9-13 | the older step model accepts any two strings, empty ones included |
| PocModels.PocPlanFromJson | research/models.py:16-21 | the older plan model requires both text fields and a step list; it rejects more than 5 steps but no smaller count, and an accepted plan's fields and steps are read from the input |
| PocModels.PocSearchStepRoundTrip | research/models.py:9-13 | every step, empty fields included, survives dump-then-validate in the older model |
| PocModels.PocPlanRoundTrip | research/models.py:16-21 | dump-then-validate in the older model gives back exactly the plans with at most 5 steps |
| PocModels.PocSearchResultFromJson | research/models.py:24-29 | the older search-result model accepts an object exactly when `query` is a string and `findings` and `sources` are both present string lists |
| PocModels.PocSearchResultRoundTrip | research/models.py:24-29 | every search result survives dump-then-validate in the older model |
| PocModels.SearchResultListsRequiredOnlyInPoc | research/models.py:24-29 | a search result given only its query is accepted, with empty lists, only by the production model |
| PocModels.PocReportFromJson | research/models.py:32-39 | the older report model accepts an object exactly when all five fields are present with their types, `limitations` included, and reads each back unchanged |
| PocModels.PocReportRoundTrip | research/models.py:32-39 | every report survives dump-then-validate in the older model |
| PocModels.PocValidationFromJson | research/models.py:42-48 | the older validation model accepts an object exactly when all four fields are present with their types, and keeps the confidence score without a range check |
| PocModels.PocValidationRoundTrip | research/models.py:42-48 | every validation, whatever its confidence, survives dump-then-validate in the older model |
| PocModels.ProductionPlanIsPocPlan | research/models.py:16-21 | every plan the production model accepts, the older model accepts identically |
| PocModels.PocAcceptsMore | research/models.py:16-21 | an empty plan and a plan with an empty step are accepted only by the older model |
| PocModels.LimitationsRequiredOnlyInPoc | research/models.py:32-39 | a report without limitations is accepted, with defaults, only by the production model |
| PocModels.ConfidenceUncheckedInPoc | research/models.py:42-48 | a confidence of 1.5 is rejected by the production model and kept by the older one |
| Exceptions.ValidationFailure | src/models.py:179-183 | a model-validation failure is reported under the type name `ValidationError` |
| Exceptions.Message | src/exceptions.py:4-39 | the base error's message is the one it was given; each phase error's message is its fixed text, and the topic, reason or attempted count it mentions reads back from its offset |
| Exceptions.TypeNameDistinguishesKind | src/exceptions.py:4-39 | the class name determines which of the five error kinds was raised |
| Exceptions.SynthesisMessageKeepsReason | src/exceptions.py:26-31 | the synthesis message determines the underlying reason |
| Exceptions.VerificationMessageKeepsReason | src/exceptions.py:34-39 | the verification message determines the underlying reason |
| Exceptions.GatheringMessageDeterminesAttempted | src/exceptions.py:17-23 | two gathering messages are equal exactly when the attempted counts are equal |
| Workflow.Successes | src/workflow.py:85-105 | the successful searches, none of them exactly when every search failed |
| Workflow.FailureCount | src/workflow.py:101-105 | the failure count is the number of searches minus the successes |
| Workflow.SearchOutcomes | src/workflow.py:89-99 | search `i` is run with step `i`'s search terms, one outcome per step |
| Workflow.CollectedInPlanOrder | src/workflow.py:89-99 | collecting in plan order gives exactly the successful results in step order |
| Workflow.CollectedIsRearrangement | src/workflow.py:89-99 | collecting in any completion order gives a rearrangement of the successful results |
| Workflow.Truncate | src/workflow.py:140-156 | `int()` truncates toward zero: within one of its argument, on the side toward zero |
| Workflow.MonotonicTimings | src/workflow.py:74-156 | with a non-decreasing clock all phase timings are non-negative and sum to at most the total |
| Workflow.RunWorkflow | src/workflow.py:35-156 | a planning failure becomes `PlanningError`; no gathered result gives `GatheringError` with the attempted and failed counts; a failing synthesis or verification agent gives `SynthesisError` or `VerificationError` with the agent's reason; a successful run returns a valid result with the plan, the gathered results, the report and the validation the agents produced |
| Workflow.GatheringFailsOnlyWhenAllFail | src/workflow.py:101-102 | gathering fails with `GatheringError(n, n)` exactly when every one of the n searches fails |
| Workflow.ResultsAreTheSuccessfulSearches | src/workflow.py:85-105 | the gathered results are a rearrangement of the successful searches, and each is the result of some step |
| Workflow.CompletionOrderWitness | src/workflow.py:97-99 | results come back in completion order: two searches finishing in reverse order give reversed results |
| Workflow.WorkflowSucceedsIff | src/workflow.py:35-156 | the workflow succeeds exactly when planning, at least one search, synthesis and verification succeed and the query is non-empty |
| Events.Label | src/events.py:10-19 | every wire name is non-empty and fits on one line |
| Events.LabelToType | src/events.py:10-19 | a wire name that reads back maps to the type carrying that name |
| Events.LabelRoundTrip | src/events.py:10-19 | every event type's wire name reads back as that type |
| Events.LabelInjective | src/events.py:10-19 | no two event types share a wire name |
| Events.DefaultType | src/events.py:33-143 | every event subclass has a default event type; only the base class has none |
| Events.NewEvent | src/events.py:33-143 | a subclass event carries its default type and the given data; a string-only payload holding a non-string is rejected |
| Events.NewError | src/events.py:115-128 | an error event carries exactly the keys `error`, `error_type` and `phase` with the given texts |
| Events.Format | src/events.py:28-30 | a heartbeat is framed as a keepalive comment; any other event is an `event:` line, a `data:` line and a blank line |
| Events.FormatParseRoundTrip | src/events.py:28-93 | a client reads back the type and payload of every framed event, and the keepalive comment from a heartbeat |
| Server.SafeMessageTable | src/server.py:70-75 | there is a fixed client message for exactly the four phase errors |
| Server.SafeMessage | src/server.py:148-151 | the message differs from the generic text exactly for the four phase error classes; it is always one of the fixed client texts and never the unexpected-error text |
| Server.SafeMessageIsFixed | src/server.py:70-75 | the client message is always one of the six fixed texts, whatever the error |
| Server.HandleFailure | src/server.py:78-101 | a pipeline error gives 422 with its class name and its class's safe message; a validation error gives 422 with its own text; any other error gives 500 `InternalServerError` with the fixed unexpected-error text |
| Server.PipelineResponseHidesMessage | src/server.py:78-85 | two pipeline errors of the same class give identical responses, whatever their messages |
| Server.PhaseMessagesDistinct | src/server.py:70-75 | different phase errors get different client messages |
| Server.StreamErrorEvent | src/server.py:337-348 | the stream's error event carries the safe message, the class name and the phase `unknown` |
| Server.ValidationTextShownOnlyOverHttp | src/server.py:88-93 | validation text reaches the HTTP client but the stream client gets the generic message |
| Server.RequestQueryBounds | src/server.py:29-37 | a request is rejected exactly when its query is empty or longer than 1000 characters, whatever the mode |
| Server.Research | src/server.py:243-256 | a query outside 1..1000 characters is rejected before anything runs; demo mode outside development and staging gives 403; otherwise the demo result, the workflow result or the handled failure |
| Server.ResearchNeverLeaksPipelineText | src/server.py:243-256 | a failed pipeline run always answers 422 with one of the fixed texts |
| Stream.TimeoutEvent | src/server.py:365-375 | the timeout event is an error event with type `TimeoutError` and phase `timeout` |
| Stream.KeepAliveIsHeartbeat | src/server.py:383-386 | the loop's keepalive frame is exactly a formatted heartbeat event |
| Stream.Produce | src/server.py:327-350 | the producer moves pending events into the queue in order without exceeding its bound of 100, and marks completion when the script is used up |
| Stream.Step | src/server.py:359-393 | one loop iteration keeps the queue bound and the stream start |
| Stream.Run | src/server.py:359-393 | any number of iterations keeps the queue bound and the stream start |
| Stream.StepBranches | src/server.py:359-393 | in one iteration: completion exits with no yield; past 600 s the timeout error is yielded and the loop exits, even if the client left; a disconnect exits with no yield; otherwise a due keep-alive is yielded and the next one is due 30 s later, then the first queued event is yielded |
| Stream.RunEndsPastDeadline | src/server.py:363-375 | the loop never runs past the first tick more than 600 s after the start |
| Stream.StepInv | src/server.py:359-393 | one iteration preserves the loop invariant: forwarded + queued + pending events are the script, heartbeats are 30 s apart, and a timeout is sent at most once and only after 600 s |
| Stream.RunInv | src/server.py:359-393 | the loop invariant holds after any number of iterations |
| Stream.EventGeneratorSpec | src/server.py:312-398 | the client receives a prefix of the produced events, all of them when the run completes; heartbeats never exceed one per 30 s; a timeout frame is sent exactly when the stream timed out, and only after 600 s; any tick past 600 s ends the loop |
| Stream.TaskScriptAsWritten | src/server.py:327-350 | as written, the background task produces one error event |
| Stream.TaskScript | src/server.py:327-350 | with the callback wiring fixed, the task produces the completion event or the safe error event |
| Stream.StreamAsWrittenNeverCompletes | src/server.py:331-334 | as written, every event the client receives is an error, carrying `TypeError` and the generic message |
| Stream.StreamDeliversOutcome | src/server.py:327-350 | with the wiring fixed, a completed stream delivers the workflow's result or its safe error |
| Logging.CorrelationId | src/logging.py:54-56 | with no correlation id in context the default `unknown` is used |
| Logging.ProcessLogFields | src/logging.py:64-91 | `event` becomes `message`, context is added, standard fields stay on top, all others move to `extra`, and a non-default correlation id is added to `extra` |
| Logging.ProcessLogFieldsPartition | src/logging.py:74-81 | every other key ends up either on top or in `extra`, according to whether it is a standard field, and never in both |
| Logging.FormatFieldValue | src/logging.py:125-130 | values over 50 characters are cut to 47 plus `...`; shorter values are unchanged |
| Logging.FormatFieldValueIdempotent | src/logging.py:125-130 | formatting a formatted value changes nothing |
| Logging.FormatCorrelationId | src/logging.py:145-150 | an empty id shows as nothing; any other id as ` [id:` + its first 8 characters (all of a shorter id) + `]`, which read back from offset 5 |
| Logging.FormatCorrelationIdPrefix | src/logging.py:145-150 | two ids display alike exactly when their first 8 characters agree |
| Logging.FormatLoggerName | src/logging.py:152-162 | names not starting with `src` are shown unchanged; for the others, splitting the result at dots gives exactly the last two dot-separated parts of the name with every `src.` removed, or its only part |
| Logging.FormatLoggerNameShape | src/logging.py:152-162 | a `src` name is shown as the last two dotted parts of the name with `src.` removed (or its only part) joined by a dot; the result has at most one dot and is a suffix of the stripped name |
| Logging.FormatExtraFields | src/logging.py:164-169 | no extras show as nothing; otherwise ` [` + the `key=value` entries joined by `, ` + `]`, and the entries read back from inside the brackets |
| Logging.ExtraFieldsSingle | src/logging.py:164-169 | one extra shows as ` [key=value]` with the value formatted |
| Logging.ExtraFieldsSnoc | src/logging.py:164-169 | each further extra adds `, key=value` before the closing bracket, in insertion order |
| Logging.FormatLineParts | src/logging.py:105-123 | the time, ` [`, the upper-cased level, `] `, the short logger name, `: ` and the message each read back at their offsets, and the rest of the line is the extras followed by the correlation id |
| Logging.CorrelationShownTwice | src/logging.py:83-89 | a non-default correlation id appears in the extras and again as the trailing id tag |
| Logging.LevelAttribute | src/logging.py:180-181 | a resolved level is one of the standard numeric levels |
| Logging.ResolveLevelCaseInsensitive | src/logging.py:180-181 | an unset level means INFO, and the setting's case does not matter |
| Logging.ResolveLevelLowerCase | src/logging.py:180-181 | `debug` resolves to level 10 |
| Logging.ResolveLevelFormatAttribute | src/logging.py:180-181 | `basic_format` names a non-level attribute of the logging module and makes configuration fail |
| Demo.DemoModeAllowed | src/demo.py:19-29 | demo mode is allowed when no environment is set, or in exactly `development` and `staging` |
| Demo.DemoModeOnlyInDevelopmentAndStaging | src/demo.py:19-29 | production, a differently cased name and the empty string are all refused |
| Demo.DemoResult | src/demo.py:32-133 | the fixture is a valid result for any non-empty query and a validation error for the empty one |
| Demo.DemoFixtureConsistent | src/demo.py:32-133 | the fixture's searches follow its plan, the report cites exactly the searches' sources, and the phase timings add up to the total |
| Demo.DemoStream | src/demo.py:136-202 | the demo stream sends start/complete for the four phases, then the completion event, or raises a validation error for an empty query |
| Demo.DemoStreamMatchesResult | src/demo.py:136-202 | the stream's phase durations are the fixture's timings and its last event carries the fixture result |
| PocRunner.FirstFailure | research/run_research.py:53-55 | there is no failure exactly when every search finished successfully; otherwise a failure that happened is reported |
| PocRunner.RunResearch | research/run_research.py:22-89 | a planning, synthesis or verification failure propagates with the agent's reason; a run succeeds only if every search succeeded, and then returns the query, the plan, the results in plan order, the report and the validation |
| PocRunner.SearchResultsInPlanOrder | research/run_research.py:53-55 | the runner's search results are in plan order, whatever order the searches completed in |
| PocRunner.OneFailedSearchFailsRun | research/run_research.py:53-55 | a single failing search fails the whole run with the task group's error |
| PocRunner.CliQuery | research/run_research.py:94-98 | without a query argument the runner exits with status 1 |
| PocRunner.OptionalSection | research/run_research.py:172-188 | empty issues or recommendations give no section; otherwise a heading plus one bullet per item |
| PocRunner.MarkdownLineCount | research/run_research.py:123-190 | the report has 31 fixed lines, two per key finding, one per source, and the optional sections |
| PocRunner.MarkdownHead | research/run_research.py:125-139 | the report opens with the title as a level-one heading, then the query, then the summary |
| PocRunner.MarkdownLimitations | research/run_research.py:156-162 | right after the source links comes the "## Limitations" heading with the limitations text verbatim |
| PocRunner.MarkdownValidity | research/run_research.py:163-170 | the validation section ends with the validity and the confidence score to two decimals |
| PocRunner.FindingLine | research/run_research.py:142-144 | key finding i is numbered i+1 and followed by a blank line |
| PocRunner.SourceLine | research/run_research.py:153-154 | source i is numbered i+1 and shown as a link to itself |
| PocRunner.Fixed2Examples | research/run_research.py:169 | the confidence is shown with two decimals, ties to the even hundredth |
| PocRunner.HundredthsNearest | research/run_research.py:169 | the shown hundredths are the ones nearest the value, the even one on a tie |
| PocRunner.MarkdownLinesSingle | research/run_research.py:123-190 | when no field contains a newline, no rendered line does |
| PocRunner.MarkdownSplitsIntoLines | research/run_research.py:190 | splitting the Markdown at newlines gives back exactly the rendered lines |
| Datasets.CategoryFromLabel | research/test_dataset.py:12-22 | a category label that reads back maps to the category with that label |
| Datasets.CategoryLabelRoundTrip | research/test_dataset.py:12-22 | every category's label reads back as that category |
| Datasets.OfCategory | research/test_dataset.py:42-44 | exactly the items of the given category are kept |
| Datasets.ByCategory | research/evaluation_dataset.py:58-60 | exactly the questions of the given category are returned |
| Datasets.CategoriesPartition | research/test_dataset.py:12-22 | the eight category filters together count every item exactly once |
| Datasets.Sample | research/test_dataset.py:46-48 | sampling returns min(n, size) questions in the drawn order, and fails exactly when n is negative |
| Datasets.SampleDistinct | research/evaluation_dataset.py:62-64 | a sample never repeats a question |
| Datasets.QuestionIdInjective | research/test_dataset.py:53-769 | the id scheme `prefix_NNN` gives different ids to different categories or numbers |
| Datasets.BlocksDistinct | research/test_dataset.py:53-769 | blocks of sequentially numbered questions for distinct categories never share an id |
| Datasets.CheckExportPath | research/test_dataset.py:800-808 | an export path is accepted exactly when its resolved form lies under the working directory, `research`, `/tmp` or the macOS temporary root |
| Datasets.InsideCwdAccepted | research/evaluation_dataset.py:823-831 | any path resolving inside the working directory is accepted |
| Datasets.OutsideRootsRejected | research/evaluation_dataset.py:823-831 | any path resolving outside all four roots is rejected |
| Datasets.SystemPathRejected | research/test_dataset.py:800-808 | `/usr/local/malicious.json` is rejected |
| Datasets.ParentTraversalRejected | research/test_dataset.py:800-808 | `../../etc/passwd` is rejected from a three-level working directory |
| Datasets.ExportTarget | research/test_dataset.py:823-841 | the export target is the first argument, or the default file name |
| Datasets.ExportExitCode | research/evaluation_dataset.py:846-864 | the export script exits 0 exactly when the target is allowed, and 1 otherwise |
| QuestionBank.ByCategoryIsBlock | research/test_dataset.py:53-769 | each category's questions are exactly its own block |
| QuestionBank.CategoryCounts | research/test_dataset.py:53-769 | filtering by each category gives its expected count (ExpectedCount): 20 technical, 20 business, 15 scientific, 10 historical, 15 comparative, 10 emerging, 5 synthesis and 5 validation questions |
| QuestionBank.DatasetShape | research/evaluation_dataset.py:46-64 | both datasets are version 1.0.0 with the same 100 questions, and every category is represented |
| QuestionBank.DistinctQuestionIds | research/test_dataset.py:53-769 | no two questions share an id |
| QuestionBank.KnownDifficulties | research/test_dataset.py:25-33 | every question's difficulty is easy, medium or hard |
| BatchRunner.EffectiveSampleSize | research/batch_runner.py:84-91 | an absent size and a size of 0 both mean 10 |
| BatchRunner.SelectQuestions | research/batch_runner.py:84-91 | sample mode is exactly `sample(questions, size or 10)`: min(size, all) questions in draw order, failing on a negative size; category mode fails without a category and otherwise is exactly `by_category` of that category; full mode takes every question |
| BatchRunner.Record | research/batch_runner.py:116-166 | a query's record is successful exactly when the research run succeeded, with its score; otherwise it carries the error |
| BatchRunner.RunAll | research/batch_runner.py:116-166 | one record per selected question, in order |
| BatchRunner.Successes | research/batch_runner.py:208-214 | exactly the successful records |
| BatchRunner.Failures | research/batch_runner.py:208-214 | exactly the failed records |
| BatchRunner.SuccessesAndFailures | research/batch_runner.py:208-214 | successful and failed records together are all records |
| BatchRunner.Mean | research/batch_runner.py:217-218 | the mean exists exactly for a non-empty list and times its length gives the sum |
| BatchRunner.Scores | research/batch_runner.py:217 | the scores are exactly the values the records carry; when every record carries one, they are those values in record order |
| BatchRunner.AverageScore | research/batch_runner.py:217-218 | the average score is reported, rounded to two places, exactly when there are successes and their mean is not 0.0 |
| BatchRunner.AverageDurationBounds | research/batch_runner.py:221 | the average duration is the floor of the mean: avg·n ≤ sum < (avg+1)·n |
| BatchRunner.FailedEntry | research/batch_runner.py:247-254 | a failed query is listed with its id; a query over 100 characters becomes its first 100 characters plus `...`, an error over 200 its first 200 plus `...`, a missing error is empty, and shorter texts are unchanged |
| BatchRunner.SuccessRate | research/batch_runner.py:265 | the rate is 0 for an empty batch and otherwise successes/total rounded to a whole number of hundredths (ties to even), within 0.005 of the exact ratio |
| BatchRunner.GenerateSummary | research/batch_runner.py:208-270 | successes plus failures are the total; the success rate is within 0.005 of successes/total and 0 for an empty batch; the average score is over the successes and the average duration over all records; the category totals add up to the number of queries; the failed queries are listed in run order, one entry each |
| BatchRunner.CategoryStatsOver | research/batch_runner.py:226-244 | every entry is a listed category that has results, with the stats of exactly that category's records; every such category has its entry |
| BatchRunner.CategoryStatsShape | research/batch_runner.py:226-244 | only categories with results are listed, each with its result count and at most that many successes |
| BatchRunner.CategoryTotalsCoverBatch | research/batch_runner.py:226-244 | the per-category totals add up to the number of queries |
| BatchRunner.ParseCli | research/batch_runner.py:355-399 | arguments are accepted exactly when the mode is valid, a category is valid, sample mode has a size and category mode has a category; errors exit 2; the config carries what the mode uses |
| BatchRunner.ExecuteBatch | research/batch_runner.py:84-179 | a batch fails exactly when selection fails, and otherwise its summary is the summary of the records of running every selected question, in order |
| BatchRunner.MainExitCode | research/batch_runner.py:402-423 | the runner exits 2 exactly on argument errors, and otherwise 0 or 1 |
| BatchRunner.ExitZeroIffAllSucceeded | research/batch_runner.py:410-423 | the runner exits 0 exactly when the arguments are valid, selection succeeds and every selected query succeeds |
| BatchRunner.NoFailuresIff | research/batch_runner.py:410-417 | no failures exactly when every record succeeded |
| BatchRunner.SampleSizeZeroRunsTen | research/batch_runner.py:84-91 | `--size 0` is named `sample_0_…` but runs 10 questions |

## Left out

- The agents themselves, their prompts and model names: they are calls into language-model services. Each agent is a function parameter.
- Network, file and console I/O: FastAPI routing, `print`, file reads and writes, and `json.dumps`/`json.load`. JSON is modelled as a value tree, and text encoding is a parameter.
- asyncio mechanics (tasks, queues, `wait_for`, cancellation). The stream loop is modelled as a state machine driven by ticks. Each tick gives the clock reading, the disconnect flag, and how many events the producer pushes before and after the dequeue wait.
- Wall-clock time: phase timings are computed from an abstract clock, and timestamps in records and run ids are parameters.
- Floating point: scores, confidences and durations are exact reals. `Round2` and `Fixed2` round exact values, ties to even. Binary float representation error is not modelled.
- Logging.ResolveLevelCaseInsensitive: `Upper` changes only the ASCII letters a-z, while Python's `str.upper()` also maps other letters. For example "warnıng" (dotless ı) resolves to WARNING in Python and to INFO here.
- Strict field types: `GetInt`, `GetBool` and `GetStr` accept only a JSON value of exactly that type. Pydantic's lax mode also coerces `100.0` to an int, `"true"` or `1` to a bool, and numeric strings to numbers. The parsers here reject those inputs, so every acceptance condition is stated for exact types only.
- Exceptions.ValidationFailure: the text is shortened to "validation error for <model>". Pydantic's text also lists every offending field, and that listing depends on its error formatting.
- Stream.Step: its own contract states only the queue bound and the stream start. Stream.StepBranches states what each branch yields.
- Stream.Run: its own contract states only the queue bound and the stream start. Stream.RunInv and Stream.RunEndsPastDeadline state what the loop keeps and when it stops.
- Logging.LevelAttribute: only `BASIC_FORMAT` and `_STYLES` are treated as non-level attributes of the logging module. Other upper-case module attributes resolve to INFO here.
- `format_timestamp` (src/logging.py:132-143): date parsing belongs to the `datetime` library.
- Symbolic links in `Path.resolve()`: the model resolves `.` and `..` lexically.
- `print_summary` (research/batch_runner.py:273-334) and the JSON result file: console and file output only.
- The dataset load failure and KeyboardInterrupt paths in batch_runner's `main`: they need the file system or a signal.
- A non-integer `--size` is rejected by argparse's type conversion. The model takes the size as an already-parsed integer.
- The event-queue timeout in `event_callback`, which drops events after 5 s: the model's producer waits for room instead, which matches the outcome when the consumer keeps up.
- gunicorn_conf.py, export_openapi.py and the agent modules: configuration and code generation, outside the pipeline's behaviour.

## Findings

| source | as written | input that shows it | evidently intended | confidence | as-written member | corrected member |
|---|---|---|---|---|---|---|
| src/server.py:331-334 | the streaming endpoint calls `run_research_workflow(query=..., event_callback=event_callback)`, but the workflow (src/workflow.py:35-42) takes no `event_callback` keyword, so the call raises `TypeError` | any valid streaming request with demo mode off | the workflow runs and the stream ends with the completion event or the safe error event for the real failure | not executed | Stream.StreamAsWrittenNeverCompletes | Stream.StreamDeliversOutcome |
