# ETL observer — a verified model

The repository runs three AWS Step Functions pipelines: CSV files into Redshift
(sf1), JSON documents into DynamoDB (sf2), and application logs into Athena (sf3).
Each Lambda stage of these pipelines returns a response. That response carries
an **evidence envelope**: a JSON object with `step`, `ok`, `input`, `output`,
`load` and `note` members. The stages write their envelopes to CloudWatch
Logs. A separate **monitoring Lambda** does the following:

- subscribes to those log groups;
- pulls the envelopes out of Glue `EVIDENCE ` lines and out of Step Functions
  execution events;
- stores each envelope in S3 under `evidence/<batch>/per-step/`;
- when an execution ends, aggregates every envelope of that batch into
  `evidence/<batch>/summary.json`.

This project models the following in Dafny:

- the monitoring Lambda:
  - file names and keys (`Naming`);
  - the S3 store and its listing (`EvidenceStore`);
  - flow tags (`FlowMapping`);
  - the two extractors (`Extractors`);
  - the aggregation (`Aggregator`);
  - the log handler (`Collector`);
- the pre-validation Lambda (`Prevalidate`);
- the sf1 finalizer (`CsvFinalize`);
- the sf2 stages:
  - the preprocessor (`JsonPreprocessor`);
  - the DynamoDB writer (`DynamoWriter`);
  - the finalizer (`JsonFinalizer`);
- the sf3 stages:
  - the log collector (`LogCollector`);
  - the Athena executor (`AthenaExecutor`);
  - the finalizer (`LogFinalizer`).

JSON values are the datatype `JsonValue.Json`. Objects are maps, and a float
the source computes is kept as an exact ratio. A Python exception is the value
`Raised` of `Results.Result`. Each handler's outer `except` turns `Raised`
into its error response.

The model does no I/O. Everything the code reads from AWS, the clock, UUIDs or
`json.loads` is a parameter instead:

- a listing;
- a `head_object` result;
- a query outcome;
- a put outcome;
- a parse function;
- a time stamp.

The S3 bucket written by the monitoring Lambda is the class `EvidenceStore.Store`. Its
field `objects` is updated by `Put`.

Loops in the source are methods with `while`/`for` loops, each proved equal to a
specification function. The lemmas beside each function state what the
source promises, for example:

- a summary's status is `ERROR` exactly when some envelope has `ok` false;
- the chunked DynamoDB writes attempt every item once;
- `int(str(i)) == i` for the Athena cell conversion;
- a batch is finalized exactly when some line of the delivery both ends an
  execution and yields its envelope;
- the handler stores each finalized batch's summary and report, and fails
  exactly when a line raises or the report of some batch's summary raises;
  in that case the later batches are never finalized.

## Model

| member | source | states |
|---|---|---|
| Naming.Sanitize | lambda-functions/monitoring_lambda.py:23-25 | the result contains only letters, digits, `-`, `_`, `.` and `/`, is never longer than the input, and is non-empty when the input is |
| Naming.SanitizeFixed | lambda-functions/monitoring_lambda.py:23-25 | a string made only of allowed characters is left unchanged |
| Naming.SafeFilename | lambda-functions/monitoring_lambda.py:23-25 | the file name is never empty and holds only allowed characters |
| Naming.SafeFilenameIdempotent | lambda-functions/monitoring_lambda.py:23-25 | the empty name becomes `unknown`; applying the function twice equals applying it once; a name is kept exactly when it is non-empty and already allowed |
| Naming.StepName | lambda-functions/monitoring_lambda.py:406-407 | a missing or falsy `step` gives `unknown`, a string step its safe name, and any other truthy value raises |
| Naming.PerStepKey | lambda-functions/monitoring_lambda.py:406-407 | every per-step key lies under `evidence/<batch>/per-step/` |
| Naming.OutputKeysApart | lambda-functions/monitoring_lambda.py:412-416 | distinct batches have distinct `summary.json` keys and distinct `report.html` keys, a summary key is never a report key, and with no `/` in either id neither output key of one batch lies under the other batch's per-step prefix |
| Naming.ComponentType | lambda-functions/monitoring_lambda.py:53-62 | `glue_convert` is a Glue job, the four Lambda steps are Lambda functions, and any other step is the default service, each case both ways |
| Naming.FileType | lambda-functions/monitoring_lambda.py:64-69 | the first of `.csv`, `.parquet`, `.json` that occurs in the path decides the label, and `ファイル` is given exactly when none occurs |
| EvidenceStore.ListingSpec | lambda-functions/monitoring_lambda.py:27-38 | the listing holds exactly the stored keys that start with the prefix, each once, in strictly ascending order |
| EvidenceStore.ListingLocal | lambda-functions/monitoring_lambda.py:27-38 | the listing depends only on the objects under the prefix |
| EvidenceStore.ApplyWritesDomain | lambda-functions/monitoring_lambda.py:40-51 | after a sequence of puts the store holds exactly the old keys and the written ones |
| EvidenceStore.ApplyWritesLast | lambda-functions/monitoring_lambda.py:40-51 | a key holds the body of its last write |
| EvidenceStore.ApplyWritesUntouched | lambda-functions/monitoring_lambda.py:40-51 | a key that is never written keeps its old body |
| EvidenceStore.ApplyWritesIdempotent | lambda-functions/monitoring_lambda.py:40-51 | repeating the same writes leaves the store as the first round left it |
| EvidenceStore.ApplyWritesOverwrite | lambda-functions/monitoring_lambda.py:40-51 | a second round of writes that touches every key the first round touched leaves the store as the second round alone would |
| EvidenceStore.LastWrite | lambda-functions/monitoring_lambda.py:40-51 | a written key has a last write, and no later write touches that key |
| EvidenceStore.Store.constructor | lambda-functions/monitoring_lambda.py:40-51 | the store starts with the given objects |
| EvidenceStore.Store.Put | lambda-functions/monitoring_lambda.py:40-51 | a put overwrites one key and leaves every other key as it was |
| EvidenceStore.Store.List | lambda-functions/monitoring_lambda.py:27-38 | the paginated listing loop returns the listing specification |
| FlowMapping.FlowType | lambda-functions/monitoring_lambda.py:253-267 | an unreadable mapping or a null, boolean or numeric ARN gives `unknown-pipeline`; a list or dict ARN is matched by membership, as `in` does |
| FlowMapping.ResolveFlowType | lambda-functions/monitoring_lambda.py:253-267 | the pattern loop returns the flow tag function |
| FlowMapping.FirstMatchIndex | lambda-functions/monitoring_lambda.py:261-263 | the tag is that of the first pattern that occurs in the ARN |
| FlowMapping.NoMatchUnknown | lambda-functions/monitoring_lambda.py:261-267 | when no pattern occurs in the ARN the tag is `unknown-pipeline` |
| Extractors.GlueEvidence | lambda-functions/monitoring_lambda.py:304-319 | an envelope is found only for a line that starts with `EVIDENCE ` and whose payload parses to an object; it carries the event id and the time stamp |
| Extractors.GlueRoundTrip | lambda-functions/monitoring_lambda.py:304-319 | for `EVIDENCE ` followed by a serialized `{"evidence": e}`, the result is `e` plus `event_id` and `ts`, and every other member of `e` is kept |
| Extractors.NestedEvidence | lambda-functions/monitoring_lambda.py:278-283 | an `input` object carrying `evidence` gives that member; failing that, an `output` object carrying it gives that one; with neither, the result is null |
| Extractors.ChosenEvidence | lambda-functions/monitoring_lambda.py:278-286 | a truthy nested envelope wins; otherwise the top-level `evidence` member is taken |
| Extractors.StepFunctionsEvidence | lambda-functions/monitoring_lambda.py:269-302 | a result exists only for a line that parses to an object |
| Extractors.StepFunctionsPrefersInput | lambda-functions/monitoring_lambda.py:269-302 | an envelope under `input` is returned with the event type, ARN, state, event id, flow tag and time stamp added, and its other members kept |
| Extractors.StepFunctionsPrefersOutput | lambda-functions/monitoring_lambda.py:269-302 | with no envelope under `input`, a non-empty envelope under `output` is returned, stamped with the event id and time stamp, and its other members kept |
| Extractors.ExtractorsIgnoreClock | lambda-functions/monitoring_lambda.py:269-319 | both extractors find an envelope at one time exactly when they find it at another, and the two differ only in `ts` |
| Extractors.StepFunctionsNoEvidence | lambda-functions/monitoring_lambda.py:278-302 | a line without any `evidence` member yields nothing |
| Aggregator.Contribution | lambda-functions/monitoring_lambda.py:332-337 | a row field counts only when it is truthy; it raises exactly when the section is not an object or the field is not numeric |
| Aggregator.FailureEntry | lambda-functions/monitoring_lambda.py:338-341 | the failure record holds the envelope as `details`, its `step`, and its `error` (default `Unknown error`) |
| Aggregator.FoldMeaning | lambda-functions/monitoring_lambda.py:328-341 | the fold succeeds exactly when every envelope is readable; it then keeps every envelope in order, the failures of the failing ones, and counters equal to the counts and sums of the truthy row fields |
| Aggregator.FailuresOfEmpty | lambda-functions/monitoring_lambda.py:338-341 | there are no failures exactly when no envelope has `ok` false, and there are never more failures than envelopes |
| Aggregator.FailuresOfRecords | lambda-functions/monitoring_lambda.py:338-341 | every failure record's `details` is a failing envelope |
| Aggregator.MinStrings | lambda-functions/monitoring_lambda.py:346 | over string stamps, `min` returns one of them, and no stamp precedes it |
| Aggregator.MaxStrings | lambda-functions/monitoring_lambda.py:347 | over string stamps, `max` returns one of them, and no stamp follows it |
| Aggregator.Stamps | lambda-functions/monitoring_lambda.py:346-347 | one `ts` per envelope, in order |
| Aggregator.PyMin | lambda-functions/monitoring_lambda.py:346 | the minimum is one of the stamps; it raises exactly when there are two or more stamps that are neither all strings nor all integers and booleans |
| Aggregator.PyMax | lambda-functions/monitoring_lambda.py:347 | the maximum is one of the stamps; it raises exactly when there are two or more stamps that are neither all strings nor all integers and booleans |
| Aggregator.Bodies | lambda-functions/monitoring_lambda.py:328-330 | the bodies are read in listing order, one per key |
| Aggregator.SummarizeStatus | lambda-functions/monitoring_lambda.py:321-358 | the status is `ERROR` exactly when aggregation raised or some envelope failed; a built summary keeps every envelope and its failures |
| Aggregator.SummaryStepsObjects | lambda-functions/monitoring_lambda.py:328-335 | a summary that was built holds only object steps whose `input` and `output`, when present, are objects; any other envelope makes the aggregation return the error summary |
| Aggregator.SummarizeCounts | lambda-functions/monitoring_lambda.py:326-337 | the summary counters are the counts and sums of the row fields |
| Aggregator.SummarizeWindow | lambda-functions/monitoring_lambda.py:346-347 | with string stamps, `started` and `ended` bound every envelope's stamp |
| Aggregator.SummarizeEmpty | lambda-functions/monitoring_lambda.py:343-350 | no envelopes gives status OK, zero counters, no failures, and the aggregation time as the window |
| Aggregator.AggregateLocal | lambda-functions/monitoring_lambda.py:321-331 | the summary depends only on the objects under the batch's per-step prefix |
| Aggregator.FoldRaisedPrefix | lambda-functions/monitoring_lambda.py:351-358 | once an envelope raises, the whole aggregation raises |
| Aggregator.FoldNext | lambda-functions/monitoring_lambda.py:328-341 | the fold over one more envelope is one more step |
| Aggregator.Tally | lambda-functions/monitoring_lambda.py:331-341 | the loop body equals the step function |
| Aggregator.AggregateEvidences | lambda-functions/monitoring_lambda.py:321-358 | the aggregation over the store returns the summary of the listed envelopes |
| Aggregator.SummaryJson | lambda-functions/monitoring_lambda.py:343-358 | the summary JSON carries the status, the batch id and the generation time |
| Collector.BatchIdOf | lambda-functions/monitoring_lambda.py:404 | a falsy `batch_id` gives `B<epoch>` and a string is kept; a list or dict raises as unhashable |
| Collector.LineEvidence | lambda-functions/monitoring_lambda.py:386-399 | evidence is found only on a line holding `EVIDENCE ` or in a Step Functions log group, and it is never empty |
| Collector.LineOutcome | lambda-functions/monitoring_lambda.py:382-409 | a line writes nothing exactly when it yields no evidence, and raises exactly when its batch id or step name raises |
| Collector.Outcomes | lambda-functions/monitoring_lambda.py:382-409 | one outcome per delivered line, in order |
| Collector.ScanFailure | lambda-functions/monitoring_lambda.py:382-409 | the scan fails exactly when some line raises; terminal batches are always among the seen ones |
| Collector.ScanBatches | lambda-functions/monitoring_lambda.py:403-409 | a batch is seen (or terminal) exactly when some line writes an envelope for it (and is terminal) |
| Collector.ScanFailedStays | lambda-functions/monitoring_lambda.py:382-409 | once a line raises, later lines change nothing |
| Collector.SkipNone | lambda-functions/monitoring_lambda.py:382-409 | an outcome without a write, anywhere in the outcomes, leaves the scan unchanged |
| Collector.MalformedLineSkipped | lambda-functions/monitoring_lambda.py:390-399 | a line that yields no envelope, at any position in the delivery, leaves the scan exactly as the delivery without it would |
| Collector.UnparsableLineYieldsNothing | lambda-functions/monitoring_lambda.py:390-399 | a non-JSON line without `EVIDENCE ` yields no write |
| Collector.TerminalWithoutEvidence | lambda-functions/monitoring_lambda.py:394-409 | a terminal event whose line yields no envelope finalizes nothing |
| Collector.FinalizeNext | lambda-functions/monitoring_lambda.py:412-417 | finalizing one more batch writes its summary |
| Collector.FinalizeOneWrites | lambda-functions/monitoring_lambda.py:413-416 | one pass writes the summary; it fails exactly when the report of that summary raises, and then writes nothing else; otherwise it also writes the report |
| Collector.ReportRaisesMeaning | lambda-functions/monitoring_lambda.py:168-187 | the report of a batch's summary raises exactly when the aggregation succeeded and some envelope stored under the batch's per-step prefix has a list or object `step` |
| Collector.FinalizeFails | lambda-functions/monitoring_lambda.py:412-417 | the finalizing loop fails exactly when the report of some batch's summary raises; then that batch's summary is the last write and the later batches are never finalized |
| Collector.FinalizeStops | lambda-functions/monitoring_lambda.py:412-417 | a failed loop stopped at a batch whose prefix had not failed, whose report raised, and whose summary is the only write of that pass |
| Collector.FinalizeFailedStays | lambda-functions/monitoring_lambda.py:412-417 | once a report raises, the later batches change nothing |
| Collector.FinalizeAllSpec | lambda-functions/monitoring_lambda.py:412-417 | finalizing distinct batches keeps every key; when no report raises, each batch's `summary.json` holds the summary built on its turn and its `report.html` the report of that summary |
| Collector.FinalizeFrame | lambda-functions/monitoring_lambda.py:412-417 | finalizing touches only the `summary.json` and `report.html` keys of the batches |
| Collector.FinalizeLocal | lambda-functions/monitoring_lambda.py:411-417 | with batch ids free of `/`, each batch is summarized over exactly the per-step objects the lines wrote, whatever earlier batches stored |
| Collector.FinalizeFailsLocal | lambda-functions/monitoring_lambda.py:412-417 | with batch ids free of `/`, finalizing fails exactly when the report of some batch's summary over the given store raises |
| Collector.FinalizeFailsSet | lambda-functions/monitoring_lambda.py:411-417 | the same, stated for the set of terminal batches in the order they are finalized |
| Collector.SortedDistinct | lambda-functions/monitoring_lambda.py:411-412 | the terminal batches, in the order finalized, are distinct and are exactly the terminal set |
| Collector.Handler | lambda-functions/monitoring_lambda.py:360-430 | a disabled handler returns the disabled response and an undecodable payload the error response, and neither changes the store |
| Collector.HandlerProcessed | lambda-functions/monitoring_lambda.py:360-430 | finalized batches are processed batches, and a batch is finalized exactly when some line yields a terminal envelope for it; the events count is the number of lines and the log group is the delivery's |
| Collector.HandlerStored | lambda-functions/monitoring_lambda.py:411-424 | on success every finalized batch has both its `summary.json` and its `report.html` in the store |
| Collector.HandlerSummaries | lambda-functions/monitoring_lambda.py:411-424 | with batch ids free of `/`, on success each finalized batch's `summary.json` is its aggregate over the store the lines left, that summary's report does not raise, and `report.html` holds its report |
| Collector.HandlerAfterScan | lambda-functions/monitoring_lambda.py:411-430 | once no line raised, the handler fails exactly when the finalizing loop does |
| Collector.HandlerFailsIffRaise | lambda-functions/monitoring_lambda.py:360-430 | an enabled handler fails on a delivery exactly when some line raises or the finalizing loop stops on a report that raises |
| Collector.HandlerReportFails | lambda-functions/monitoring_lambda.py:411-430 | with no line raising and batch ids free of `/`, the handler fails exactly when the report of some terminal batch's aggregate raises |
| Collector.RedeliveryOverwrites | lambda-functions/monitoring_lambda.py:382-409 | read again at another time with the same parser and flow tags, a delivery whose envelopes name their batches sees, finalizes and fails alike, writes the same keys in the same order, and the second reading's writes overwrite everything the first wrote |
| Collector.LineOutcomeClock | lambda-functions/monitoring_lambda.py:386-409 | read at another time, a line whose envelope names its batch writes the same key for the same batch, and raises or ends its batch alike |
| Collector.ScanSameEffect | lambda-functions/monitoring_lambda.py:382-409 | two outcome sequences that agree line by line on keys, batches and raising give the same sets, failure and write keys |
| Collector.ScanDelivery | lambda-functions/monitoring_lambda.py:382-409 | the per-line loop returns the scan's sets and applies exactly its writes to the store |
| Collector.LambdaHandler | lambda-functions/monitoring_lambda.py:360-430 | the handler returns the handler function's result and leaves the store in its state |
| Collector.FinalizeBatches | lambda-functions/monitoring_lambda.py:411-417 | the finalizing loop leaves the store and the failure flag exactly as `FinalizeAll` specifies |
| StringOrder.SortedList | lambda-functions/monitoring_lambda.py:412 | the set of terminal batches is visited once each, in ascending order |
| Prevalidate.CheckFile | lambda-functions/lambda_prevalidate.py:24-50 | an entry is checked exactly when it is an object with `bucket` and `key`; a checked entry is either validated or carries an error, never both |
| Prevalidate.CheckOrder | lambda-functions/lambda_prevalidate.py:29-47 | an oversized file gets the size error with the key and byte count; a file within the limit with a `.csv` name is validated with its size and date; a validated file has a CSV name and is within the limit |
| Prevalidate.UpperCaseExtension | lambda-functions/lambda_prevalidate.py:39-41 | the extension check ignores case |
| Prevalidate.GatherNext | lambda-functions/lambda_prevalidate.py:23-50 | gathering one more entry adds its check |
| Prevalidate.GatherMeaning | lambda-functions/lambda_prevalidate.py:23-50 | the loop completes exactly when every entry has `bucket` and `key`; then validated plus errors equals the number of files, and the total size is the sum of the looked-up sizes |
| Prevalidate.EvidenceJson | lambda-functions/lambda_prevalidate.py:55-72 | the envelope's `ok`, file count, total size, validated count and note follow the tally |
| Prevalidate.ErrorResponse | lambda-functions/lambda_prevalidate.py:83-95 | the error response is a 500 whose envelope says not ok |
| Prevalidate.SuccessResponse | lambda-functions/lambda_prevalidate.py:74-81 | a 200 response with the success flag and the validated files |
| Prevalidate.HandlerMeaning | lambda-functions/lambda_prevalidate.py:11-95 | 500 exactly when some entry lacks `bucket` or `key`; otherwise 200, every file counted, and success exactly when no file failed and one was validated |
| Prevalidate.LambdaHandler | lambda-functions/lambda_prevalidate.py:11-95 | the handler returns the handler function's result |
| Prevalidate.GatherLoop | lambda-functions/lambda_prevalidate.py:23-50 | the loop over the files returns the gathering function |
| Prevalidate.CheckEntry | lambda-functions/lambda_prevalidate.py:24-50 | the loop body returns the check of the entry |
| Prevalidate.GatherRaised | lambda-functions/lambda_prevalidate.py:49-50 | an entry without `bucket` or `key` makes the whole loop raise |
| CsvFinalize.GlueSucceeded | step-functions/sf1-csv-redshift/lambda_finalize.py:29-36 | for a result that is an object, the conversion succeeds exactly when `glue_result` is an object whose `JobRunState` is `SUCCEEDED`; without `glue_result` it does not succeed, and a non-object `glue_result` raises |
| CsvFinalize.MapResultItems | step-functions/sf1-csv-redshift/lambda_finalize.py:14-27 | the loop walks a list's elements; an empty string or dict gives no pass; any other value raises |
| CsvFinalize.FailureRecord | step-functions/sf1-csv-redshift/lambda_finalize.py:29-52 | the failure record names the step, the file and the error |
| CsvFinalize.GlueFailure | step-functions/sf1-csv-redshift/lambda_finalize.py:33-36 | a conversion failure is recorded against `glue_convert` |
| CsvFinalize.LoadPayload | step-functions/sf1-csv-redshift/lambda_finalize.py:39-44 | there is no load payload exactly when `redshift_result` is absent |
| CsvFinalize.ConvertStep | step-functions/sf1-csv-redshift/lambda_finalize.py:29-36 | a conversion adds one to conversions exactly when the Glue job run SUCCEEDED, and otherwise one `glue_convert` failure; it leaves the load counters alone, and raises exactly when the test or the failure record raises |
| CsvFinalize.LoadStep | step-functions/sf1-csv-redshift/lambda_finalize.py:39-52 | a result without a load leaves the tally unchanged; a load counts as successful exactly when its payload's `success` is truthy, and then adds its `inserted_rows` (default 0) to the loaded rows; otherwise it records one `redshift_load` failure; it raises exactly when the payload cannot be read or a successful load's `inserted_rows` is not an integer |
| CsvFinalize.FoldResultsCounts | step-functions/sf1-csv-redshift/lambda_finalize.py:27-52 | conversions equal the number of results whose Glue job run SUCCEEDED; conversions plus conversion failures equal the number of results; loads plus load failures equal the number of results that carry a load |
| CsvFinalize.CountStepGrows | step-functions/sf1-csv-redshift/lambda_finalize.py:27-52 | appending failure records adds one to a step's count for each record of that step |
| CsvFinalize.PrevalidateFailure | step-functions/sf1-csv-redshift/lambda_finalize.py:55-66 | a validation error is recorded against `prevalidate` |
| CsvFinalize.PrevalidateFailures | step-functions/sf1-csv-redshift/lambda_finalize.py:55-66 | one failure record per validation error, in order |
| CsvFinalize.ValidationErrors | step-functions/sf1-csv-redshift/lambda_finalize.py:55-61 | a non-object result or an unreadable or non-object payload raises; falsy `validation_errors` gives none, a list its elements, a string one error per character, and any other truthy value raises |
| CsvFinalize.RunVerdict | step-functions/sf1-csv-redshift/lambda_finalize.py:18-71 | overall success exactly when there is no failure and every file was converted and loaded; the failures are the step failures followed by the validation errors |
| CsvFinalize.EvidenceJson | step-functions/sf1-csv-redshift/lambda_finalize.py:74-97 | the envelope's `ok`, failure count and inserted rows follow the run |
| CsvFinalize.SummaryJson | step-functions/sf1-csv-redshift/lambda_finalize.py:100-114 | the status is SUCCESS or PARTIAL_FAILURE by the verdict; the row totals are zero; the failure count follows the run |
| CsvFinalize.ErrorResponse | step-functions/sf1-csv-redshift/lambda_finalize.py:126-139 | a 500 whose envelope says not ok |
| CsvFinalize.Finalize | step-functions/sf1-csv-redshift/lambda_finalize.py:8-139 | the stage raises out of the handler exactly when `len(files)` raises; otherwise it answers 500 exactly when the run raises, and 200 with `overall_success` equal to the run's verdict when it completes |
| CsvFinalize.CompletedResponse | step-functions/sf1-csv-redshift/lambda_finalize.py:118-124 | the response of a completed run is a 200 carrying the batch id and the run's verdict as `overall_success` |
| CsvFinalize.RunLoops | step-functions/sf1-csv-redshift/lambda_finalize.py:18-71 | the two loops compute the run function |
| CsvFinalize.FoldNext | step-functions/sf1-csv-redshift/lambda_finalize.py:27-52 | folding one more result is one more step over the counts so far |
| CsvFinalize.LambdaHandler | step-functions/sf1-csv-redshift/lambda_finalize.py:8-139 | the handler returns the finalize function |
| CsvFinalize.AppendPrevalidate | step-functions/sf1-csv-redshift/lambda_finalize.py:55-66 | the loop appends one record per validation error |
| CsvFinalize.Visit | step-functions/sf1-csv-redshift/lambda_finalize.py:27-52 | the loop body computes one result's step |
| CsvFinalize.FoldRaisedPrefix | step-functions/sf1-csv-redshift/lambda_finalize.py:27-52 | once a result raises, the loop raises |
| JsonPreprocessor.ShapeErrors | step-functions/sf2-json-dynamodb/lambda_json_preprocessor.py:71-81 | the missing, non-list and empty `items` cases each give their one error, and a non-empty list gives none, each both ways |
| JsonPreprocessor.Validate | step-functions/sf2-json-dynamodb/lambda_json_preprocessor.py:71-96 | a non-dict is one error; validation passes only for a dict with an `items` list |
| JsonPreprocessor.ItemMissing | step-functions/sf2-json-dynamodb/lambda_json_preprocessor.py:83-91 | an object item gives one error per missing required field |
| JsonPreprocessor.ItemErrorsMeaning | step-functions/sf2-json-dynamodb/lambda_json_preprocessor.py:83-91 | there are no item errors exactly when every item has `name` and `category`; for dict items there is one error per missing field |
| JsonPreprocessor.ValidIff | step-functions/sf2-json-dynamodb/lambda_json_preprocessor.py:71-96 | the data is valid exactly when it is a dict with a non-empty `items` list of complete items |
| JsonPreprocessor.ValidateJsonData | step-functions/sf2-json-dynamodb/lambda_json_preprocessor.py:71-96 | the nested loops compute the validation function |
| JsonPreprocessor.ItemLoop | step-functions/sf2-json-dynamodb/lambda_json_preprocessor.py:83-91 | the item loop computes the item errors |
| JsonPreprocessor.ItemRaised | step-functions/sf2-json-dynamodb/lambda_json_preprocessor.py:83-91 | an item that is no dict makes the validation raise |
| JsonPreprocessor.ItemRaisedFrom | step-functions/sf2-json-dynamodb/lambda_json_preprocessor.py:83-91 | once an item raises, every longer prefix raises |
| JsonPreprocessor.EvidenceJson | step-functions/sf2-json-dynamodb/lambda_json_preprocessor.py:98-110 | the envelope has empty input, output and load, the given `ok`, and step `json_preprocess` |
| JsonPreprocessor.ProcessedItem | step-functions/sf2-json-dynamodb/lambda_json_preprocessor.py:34-40 | a processed item carries its id, the batch id and the original data |
| JsonPreprocessor.ProcessAll | step-functions/sf2-json-dynamodb/lambda_json_preprocessor.py:32-41 | one processed item per input item, in order, each with the batch id and the item as data |
| JsonPreprocessor.InvalidResponse | step-functions/sf2-json-dynamodb/lambda_json_preprocessor.py:21-29 | a 400 with no processed items |
| JsonPreprocessor.ErrorResponse | step-functions/sf2-json-dynamodb/lambda_json_preprocessor.py:59-69 | a 500 with no processed items |
| JsonPreprocessor.SuccessResponse | step-functions/sf2-json-dynamodb/lambda_json_preprocessor.py:44-54 | a 200 with the processed items and their count |
| JsonPreprocessor.PreprocessMeaning | step-functions/sf2-json-dynamodb/lambda_json_preprocessor.py:11-69 | validation errors give a 400; valid data gives a 200 with one processed item per input item carrying its data and the batch id |
| JsonPreprocessor.LambdaHandler | step-functions/sf2-json-dynamodb/lambda_json_preprocessor.py:11-69 | the handler returns the preprocess function |
| DynamoWriter.DynamoItem | step-functions/sf2-json-dynamodb/lambda_dynamodb_writer.py:47-57 | the DynamoDB item has exactly the nine attributes, takes id and batch id from the item and name from its data (default empty), and expires 30 days after now |
| DynamoWriter.Attempt | step-functions/sf2-json-dynamodb/lambda_dynamodb_writer.py:46-67 | an item that cannot be built fails with the build error; otherwise the put's outcome decides |
| DynamoWriter.FailedPart | step-functions/sf2-json-dynamodb/lambda_dynamodb_writer.py:62-67 | a failed item adds one failure record and a written item none |
| DynamoWriter.Accounting | step-functions/sf2-json-dynamodb/lambda_dynamodb_writer.py:40-67 | successes plus failures equal the number of items, and every failure record comes from a failed item |
| DynamoWriter.Chunks | step-functions/sf2-json-dynamodb/lambda_dynamodb_writer.py:40-42 | every chunk holds between 1 and 25 items |
| DynamoWriter.ConcatPrepend | step-functions/sf2-json-dynamodb/lambda_dynamodb_writer.py:40-42 | concatenation distributes over a leading chunk |
| DynamoWriter.ChunksMeaning | step-functions/sf2-json-dynamodb/lambda_dynamodb_writer.py:40-42 | the chunks concatenate back to the items; there are ⌈n/25⌉ of them, and all but the last are full |
| DynamoWriter.ChunksConcat | step-functions/sf2-json-dynamodb/lambda_dynamodb_writer.py:40-42 | the chunks concatenate back to the items, in order |
| DynamoWriter.ChunksSizes | step-functions/sf2-json-dynamodb/lambda_dynamodb_writer.py:40-42 | there are ⌈n/25⌉ chunks and all but the last hold 25 items |
| DynamoWriter.ChunkAt | step-functions/sf2-json-dynamodb/lambda_dynamodb_writer.py:40-42 | chunk c is the slice from 25c to min(25c + 25, n) |
| DynamoWriter.ChunksNext | step-functions/sf2-json-dynamodb/lambda_dynamodb_writer.py:40-42 | the next chunk extends the chunks so far by one slice |
| DynamoWriter.ChunkStart | step-functions/sf2-json-dynamodb/lambda_dynamodb_writer.py:40-42 | every chunk starts inside the items |
| DynamoWriter.SuccessesNext | step-functions/sf2-json-dynamodb/lambda_dynamodb_writer.py:59-67 | one more item adds one success or its failure record |
| DynamoWriter.WriteBatch | step-functions/sf2-json-dynamodb/lambda_dynamodb_writer.py:44-67 | the inner loop extends the counts to the end of the chunk |
| DynamoWriter.PutItem | step-functions/sf2-json-dynamodb/lambda_dynamodb_writer.py:46-67 | the loop body returns the attempt's outcome |
| DynamoWriter.WriteBatches | step-functions/sf2-json-dynamodb/lambda_dynamodb_writer.py:40-67 | the chunked loop visits exactly the chunks and returns the successes and failure records of all items |
| DynamoWriter.Note | step-functions/sf2-json-dynamodb/lambda_dynamodb_writer.py:110-114 | without counts the note is only the success or failure phrase |
| DynamoWriter.EvidenceJson | step-functions/sf2-json-dynamodb/lambda_dynamodb_writer.py:108-132 | the envelope's `ok`, step, inserted and dropped rows and note follow the counts |
| DynamoWriter.InvalidResponse | step-functions/sf2-json-dynamodb/lambda_dynamodb_writer.py:22-30 | a 400 that is not a success |
| DynamoWriter.ErrorResponse | step-functions/sf2-json-dynamodb/lambda_dynamodb_writer.py:96-106 | a 500 that is not a success |
| DynamoWriter.Summary | step-functions/sf2-json-dynamodb/lambda_dynamodb_writer.py:74-88 | 200 and success when at least 90% were written, otherwise 206; the totals and the envelope's row counts follow the counts |
| DynamoWriter.WrittenResponse | step-functions/sf2-json-dynamodb/lambda_dynamodb_writer.py:70-91 | the status, success flag and counts follow the counts; `failed_items` is present exactly when something failed |
| DynamoWriter.WrittenResponseFailures | step-functions/sf2-json-dynamodb/lambda_dynamodb_writer.py:70-91 | `failed_items` lists at most the first five failures; the envelope reports the written rows as inserted and the failures as dropped |
| DynamoWriter.WriteInvalid | step-functions/sf2-json-dynamodb/lambda_dynamodb_writer.py:13-106 | the status is 400 exactly when `processed_items` is falsy |
| DynamoWriter.WriteMeaning | step-functions/sf2-json-dynamodb/lambda_dynamodb_writer.py:13-106 | for a non-empty list the totals are the item count, failures are total minus successes, and success and 200 hold exactly when 10·successes ≥ 9·total |
| DynamoWriter.WriteList | step-functions/sf2-json-dynamodb/lambda_dynamodb_writer.py:22-94 | a non-empty list of items is answered with the 200/206 response of its batch id, table, item count, successes and failures |
| DynamoWriter.LambdaHandler | step-functions/sf2-json-dynamodb/lambda_dynamodb_writer.py:13-106 | the handler returns the write function |
| JsonFinalizer.StatisticsMeaning | step-functions/sf2-json-dynamodb/lambda_json_finalizer.py:59-81 | without results all statistics are zero; the input and preprocessed counts come from the preprocess result and the write counts from the DynamoDB result |
| JsonFinalizer.SuccessRate | step-functions/sf2-json-dynamodb/lambda_json_finalizer.py:77-79 | the success rate is successes over preprocessed items when that count is positive, and zero otherwise |
| JsonFinalizer.CalculateStatistics | step-functions/sf2-json-dynamodb/lambda_json_finalizer.py:59-81 | the step-by-step statistics equal the statistics function |
| JsonFinalizer.WriteFailuresLength | step-functions/sf2-json-dynamodb/lambda_json_finalizer.py:83-104 | one `dynamodb_write` failure record per failed item |
| JsonFinalizer.FailuresMeaning | step-functions/sf2-json-dynamodb/lambda_json_finalizer.py:83-104 | at most four failures; a preprocess failure exactly when preprocessing reported failure; then at most three write failures |
| JsonFinalizer.GetFailures | step-functions/sf2-json-dynamodb/lambda_json_finalizer.py:83-104 | the appending loop equals the failures function |
| JsonFinalizer.WriteFailuresRaised | step-functions/sf2-json-dynamodb/lambda_json_finalizer.py:83-104 | a failed item that is no dict makes the failure list raise |
| JsonFinalizer.NoteParts | step-functions/sf2-json-dynamodb/lambda_json_finalizer.py:106-117 | the note is the status, then the counts when present, then the error when present |
| JsonFinalizer.EvidenceJson | step-functions/sf2-json-dynamodb/lambda_json_finalizer.py:106-140 | the envelope's step, `ok`, inserted rows and note follow the statistics |
| JsonFinalizer.SuccessResponse | step-functions/sf2-json-dynamodb/lambda_json_finalizer.py:24-46 | a 200 whose `overall_success` is the SUCCESS status, mirrored in the envelope, with the failures in the summary |
| JsonFinalizer.ErrorResponse | step-functions/sf2-json-dynamodb/lambda_json_finalizer.py:48-57 | a 500 with no overall success |
| JsonFinalizer.FinalizeVerdict | step-functions/sf2-json-dynamodb/lambda_json_finalizer.py:10-57 | 200 exactly when the statistics and failures compute, and 500 otherwise; overall success follows the incoming status |
| JsonFinalizer.LambdaHandler | step-functions/sf2-json-dynamodb/lambda_json_finalizer.py:10-57 | the handler returns the finalize function |
| LogCollector.Kept | step-functions/sf3-log-athena/lambda_log_collector.py:109-115 | the kept files are never more than the listed objects |
| LogCollector.InsertNewest | step-functions/sf3-log-athena/lambda_log_collector.py:120 | insertion adds exactly one file |
| LogCollector.SortNewest | step-functions/sf3-log-athena/lambda_log_collector.py:120 | sorting is a permutation |
| LogCollector.InsertNewestSorted | step-functions/sf3-log-athena/lambda_log_collector.py:120 | insertion keeps the files newest first |
| LogCollector.SortNewestSorted | step-functions/sf3-log-athena/lambda_log_collector.py:120 | the sorted files are newest first |
| LogCollector.ListLogFilesMeaning | step-functions/sf3-log-athena/lambda_log_collector.py:102-120 | a failed listing gives no files; otherwise the result is a permutation of the non-empty `.log`/`.txt` objects, newest first, and each comes from such an object |
| LogCollector.KeptFrom | step-functions/sf3-log-athena/lambda_log_collector.py:109-115 | every kept file comes from a non-empty `.log`/`.txt` object |
| LogCollector.ListLoop | step-functions/sf3-log-athena/lambda_log_collector.py:109-115 | the filtering loop keeps exactly the log files |
| LogCollector.WordNotBlank | step-functions/sf3-log-athena/lambda_log_collector.py:134-144 | a line holding a level word is not blank |
| LogCollector.LevelOf | step-functions/sf3-log-athena/lambda_log_collector.py:134-144 | a line counts as an error exactly when its upper-cased text holds `ERROR`; a warning, info or debug line holds its word; a line holds none of the four words exactly when it is counted as other or not at all |
| LogCollector.LevelBlank | step-functions/sf3-log-athena/lambda_log_collector.py:134-144 | a line is classed blank exactly when it is whitespace only |
| LogCollector.ClassifyTotal | step-functions/sf3-log-athena/lambda_log_collector.py:128-144 | the five level counts add up to the number of non-blank lines |
| LogCollector.ClassifyLines | step-functions/sf3-log-athena/lambda_log_collector.py:134-144 | the counting loop equals the classification function |
| LogCollector.ProcessMeaning | step-functions/sf3-log-athena/lambda_log_collector.py:122-159 | a read file reports its line count, its error lines and a summary whose counts add up to its non-blank lines |
| LogCollector.Reports | step-functions/sf3-log-athena/lambda_log_collector.py:43-61 | one report per file |
| LogCollector.FirstFiles | step-functions/sf3-log-athena/lambda_log_collector.py:43 | the first at most ten files, as a prefix of the listing |
| LogCollector.EvidenceJson | step-functions/sf3-log-athena/lambda_log_collector.py:161-180 | the envelope's `ok`, step, file count and line count follow the run |
| LogCollector.NotFoundResponse | step-functions/sf3-log-athena/lambda_log_collector.py:26-36 | a 404 that is not a success |
| LogCollector.CollectedResponse | step-functions/sf3-log-athena/lambda_log_collector.py:64-86 | a 200 whose aggregated stats hold the processed and total file counts, the line and error totals, and the error rate |
| LogCollector.Entries | step-functions/sf3-log-athena/lambda_log_collector.py:43-61 | one entry per processed file, pairing it with its report |
| LogCollector.CollectMeaning | step-functions/sf3-log-athena/lambda_log_collector.py:14-100 | 404 exactly when no log file is listed; otherwise a 200 with min(files, 10) processed, the sums of their lines and errors, and the total file count |
| LogCollector.LambdaHandler | step-functions/sf3-log-athena/lambda_log_collector.py:14-100 | the handler returns the collect function |
| LogCollector.ProcessFiles | step-functions/sf3-log-athena/lambda_log_collector.py:43-61 | the loop returns the entries and the line and error sums |
| LogCollector.ProcessLogFile | step-functions/sf3-log-athena/lambda_log_collector.py:122-159 | the per-file read and count equals the processing function |
| AthenaExecutor.TrimStart | step-functions/sf3-log-athena/lambda_athena_executor.py:168-170 | trimming never lengthens the text |
| AthenaExecutor.TrimEnd | step-functions/sf3-log-athena/lambda_athena_executor.py:168-170 | trimming never lengthens the text |
| AthenaExecutor.ParseInt | step-functions/sf3-log-athena/lambda_athena_executor.py:168-170 | a parse succeeds only on text that is not blank |
| AthenaExecutor.NatDigits | step-functions/sf3-log-athena/lambda_athena_executor.py:168-170 | a decimal rendering is all digits and reads back as its number |
| AthenaExecutor.NoSpaceAround | step-functions/sf3-log-athena/lambda_athena_executor.py:168-170 | a rendering without surrounding spaces is unchanged by stripping |
| AthenaExecutor.NatRoundTrip | step-functions/sf3-log-athena/lambda_athena_executor.py:168-170 | `int(str(n)) == n` for naturals |
| AthenaExecutor.NegativeRoundTrip | step-functions/sf3-log-athena/lambda_athena_executor.py:168-170 | `int("-" + str(n)) == -n` |
| AthenaExecutor.ParseIntRoundTrip | step-functions/sf3-log-athena/lambda_athena_executor.py:168-170 | `int(str(i)) == i` for every integer |
| AthenaExecutor.ConvertCell | step-functions/sf3-log-athena/lambda_athena_executor.py:166-172 | a cell becomes an integer when it parses as one, else it stays text |
| AthenaExecutor.ConvertRow | step-functions/sf3-log-athena/lambda_athena_executor.py:165-172 | one converted value per cell, in order |
| AthenaExecutor.ConvertRows | step-functions/sf3-log-athena/lambda_athena_executor.py:163-173 | the header row is dropped and every other row is converted, in order |
| AthenaExecutor.ConvertResultRows | step-functions/sf3-log-athena/lambda_athena_executor.py:163-173 | the nested loops equal the conversion function |
| AthenaExecutor.Query | step-functions/sf3-log-athena/lambda_athena_executor.py:139-189 | success exactly for a succeeded query, with its converted rows; an ignored failure gives empty data; any other outcome gives no data |
| AthenaExecutor.ExecuteAthenaQuery | step-functions/sf3-log-athena/lambda_athena_executor.py:139-189 | the query method equals the query function |
| AthenaExecutor.TableAnalysis | step-functions/sf3-log-athena/lambda_athena_executor.py:103-137 | a failed count query fails the analysis with its error; at most five sample rows are kept |
| AthenaExecutor.ExecuteTableAnalysisQuery | step-functions/sf3-log-athena/lambda_athena_executor.py:103-137 | the three-query method equals the analysis function |
| AthenaExecutor.TableStep | step-functions/sf3-log-athena/lambda_athena_executor.py:37-63 | each table appends one entry for itself, or two exactly when its row count is not an integer |
| AthenaExecutor.Analyses | step-functions/sf3-log-athena/lambda_athena_executor.py:37-63 | one analysis per table, in order |
| AthenaExecutor.RowTotalAppend | step-functions/sf3-log-athena/lambda_athena_executor.py:37-63 | the row total of appended entries is the sum of the two totals |
| AthenaExecutor.FoldMeaning | step-functions/sf3-log-athena/lambda_athena_executor.py:37-63 | the running total is the row total of the entries; without bad row counts there is one entry per table, in table order |
| AthenaExecutor.AnalyseMeaning | step-functions/sf3-log-athena/lambda_athena_executor.py:37-63 | the same for the analyses of the tables themselves |
| AthenaExecutor.RecordAnalysis | step-functions/sf3-log-athena/lambda_athena_executor.py:44-63 | the loop body equals the table step |
| AthenaExecutor.AnalyseTables | step-functions/sf3-log-athena/lambda_athena_executor.py:37-63 | the table loop equals the analysis fold |
| AthenaExecutor.SuccessCount | step-functions/sf3-log-athena/lambda_athena_executor.py:69 | successes never exceed the entries |
| AthenaExecutor.SummaryFold | step-functions/sf3-log-athena/lambda_athena_executor.py:191-209 | the summary counts every entry and the successful ones |
| AthenaExecutor.SummaryMeaning | step-functions/sf3-log-athena/lambda_athena_executor.py:191-209 | the summary computes exactly when every entry is countable, and then its totals are the row and error totals |
| AthenaExecutor.SummaryJson | step-functions/sf3-log-athena/lambda_athena_executor.py:191-209 | the error rate is zero when there are no log entries |
| AthenaExecutor.GenerateLogSummary | step-functions/sf3-log-athena/lambda_athena_executor.py:191-209 | the summary loop equals the summary function |
| AthenaExecutor.SummaryRaisedFrom | step-functions/sf3-log-athena/lambda_athena_executor.py:191-209 | an uncountable entry makes the summary raise |
| AthenaExecutor.EntriesJson | step-functions/sf3-log-athena/lambda_athena_executor.py:72-87 | one query result per entry, in order |
| AthenaExecutor.Note | step-functions/sf3-log-athena/lambda_athena_executor.py:213-217 | without details the note is only the success or failure phrase |
| AthenaExecutor.EvidenceJson | step-functions/sf3-log-athena/lambda_athena_executor.py:211-235 | the envelope's `ok`, step, note and inserted rows follow the details |
| AthenaExecutor.InvalidResponse | step-functions/sf3-log-athena/lambda_athena_executor.py:24-31 | a 400 that is not a success |
| AthenaExecutor.ErrorResponse | step-functions/sf3-log-athena/lambda_athena_executor.py:92-101 | a 500 that is not a success |
| AthenaExecutor.AnalysedResponse | step-functions/sf3-log-athena/lambda_athena_executor.py:69-87 | success and 200 exactly when some query succeeded, otherwise 206; the total rows and the successful queries follow the entries |
| AthenaExecutor.AnalysedResponseBody | step-functions/sf3-log-athena/lambda_athena_executor.py:69-87 | the query results are the entries in table order and the log summary is the one built from them |
| AthenaExecutor.FirstTables | step-functions/sf3-log-athena/lambda_athena_executor.py:37 | the first at most three tables, as a prefix |
| AthenaExecutor.Tables | step-functions/sf3-log-athena/lambda_athena_executor.py:37 | a list gives its elements and a string its characters; any other value makes the slice raise |
| AthenaExecutor.Report | step-functions/sf3-log-athena/lambda_athena_executor.py:66-101 | never 400; a raising summary gives 500; otherwise the analysed response |
| AthenaExecutor.ExecuteMeaning | step-functions/sf3-log-athena/lambda_athena_executor.py:14-101 | 400 exactly when `tables_created` is falsy; with countable entries, the total rows are their sum, and success and 200 hold exactly when some table was analysed; without bad counts there is one entry per table |
| AthenaExecutor.SuccessCountPositive | step-functions/sf3-log-athena/lambda_athena_executor.py:69-70 | some success exactly when some entry was analysed |
| AthenaExecutor.BadCountFails | step-functions/sf3-log-athena/lambda_athena_executor.py:44-66 | a single table whose row count is not an integer leaves two entries and a 500 response |
| AthenaExecutor.SingleBadCount | step-functions/sf3-log-athena/lambda_athena_executor.py:44-66 | for one table with a non-integer row count, the fold leaves two entries and the summary raises |
| AthenaExecutor.LambdaHandler | step-functions/sf3-log-athena/lambda_athena_executor.py:14-101 | the handler returns the execute function |
| LogFinalizer.StatisticsMeaning | step-functions/sf3-log-athena/lambda_log_finalizer.py:60-99 | statistics need three objects; each block's figures are non-zero only when its stage succeeded, and a stage that succeeded supplies its reported `processed_files`, `total_log_lines`, `error_log_lines`, table count, `successful_queries` and `total_rows_analyzed`; the successful step count is the number of successful stages, at most three |
| LogFinalizer.CalculateLogStatistics | step-functions/sf3-log-athena/lambda_log_finalizer.py:60-99 | the block-by-block computation equals the statistics function |
| LogFinalizer.FillCollect | step-functions/sf3-log-athena/lambda_log_finalizer.py:75-79 | the collection block equals its function |
| LogFinalizer.FillCrawler | step-functions/sf3-log-athena/lambda_log_finalizer.py:80-83 | the crawler block equals its function |
| LogFinalizer.FillAthena | step-functions/sf3-log-athena/lambda_log_finalizer.py:84-88 | the Athena block equals its function |
| LogFinalizer.FailuresMeaning | step-functions/sf3-log-athena/lambda_log_finalizer.py:101-131 | one failure per failing stage, in stage order; successful steps plus failures equal the number of stages present |
| LogFinalizer.FailuresSteps | step-functions/sf3-log-athena/lambda_log_finalizer.py:101-131 | there is one failure record per failing stage, at most three, each naming its stage in stage order |
| LogFinalizer.GetFailures | step-functions/sf3-log-athena/lambda_log_finalizer.py:101-131 | the appending loop equals the failures function |
| LogFinalizer.NoteParts | step-functions/sf3-log-athena/lambda_log_finalizer.py:133-147 | the note is the status, then files and lines when present, then the error when present |
| LogFinalizer.EvidenceJson | step-functions/sf3-log-athena/lambda_log_finalizer.py:133-170 | the envelope's step, `ok`, inserted rows, zero dropped rows and note follow the statistics |
| LogFinalizer.SuccessResponse | step-functions/sf3-log-athena/lambda_log_finalizer.py:25-47 | a 200 whose `overall_success` is the SUCCESS status, mirrored in the envelope, with the failures in the summary |
| LogFinalizer.ErrorResponse | step-functions/sf3-log-athena/lambda_log_finalizer.py:49-58 | a 500 with no overall success |
| LogFinalizer.FinalizeVerdict | step-functions/sf3-log-athena/lambda_log_finalizer.py:10-58 | 200 exactly when the statistics compute and 500 exactly when they raise; overall success follows the incoming status |
| LogFinalizer.LambdaHandler | step-functions/sf3-log-athena/lambda_log_finalizer.py:10-58 | the handler returns the finalize function |

## Left out

- CsvFinalize.LoadStep (and CsvFinalize.Visit): a float `inserted_rows` raises in the model, while Python adds it to `total_loaded_rows` and the total becomes a float. The model keeps loaded rows as an integer. A string, list or object `inserted_rows` raises in both.
- Collector.FinalizeOne: the text of the HTML report is the parameter `env.render`. The model keeps the report's write under `evidence/<batch>/report.html` and its one way of raising: a step whose `step` member is a list or an object cannot be looked up in the step-name tables (`lambda-functions/monitoring_lambda.py:62` and `:181-187`). No other path of `generate_html_report` raises on a summary `aggregate_evidences` returns. The error summary has no `steps` or `counts`; the counts of a good summary are numbers; and each step's `input` and `output` are objects, or the aggregation would already have failed.
- Base64 and gzip decoding of the CloudWatch Logs payload is not modelled. A payload that fails to decode is an absent delivery.
- S3, CloudWatch, Athena, Glue and DynamoDB calls are not modelled. Their results are parameters:
  - listings;
  - `head_object` results;
  - file contents;
  - query outcomes;
  - put outcomes.
- Listing pagination is not modelled: the listing returns all keys with the prefix, in ascending order.
- Athena's polling loop and `time.sleep` are not modelled. A query's final state is given directly as a `QueryOutcome`.
- `print` logging is left out.
- Exception messages are not modelled: the text of an exception caught by an outer `except` is a parameter.
- Clock readings are parameters. The model has one `now` per invocation, where the source reads the clock several times, and an integer epoch stands for `time.time()`.
- Put errors are not modelled. The monitoring Lambda's `save_to_s3` swallows its own errors, so every put succeeds.
- Python `set` order is not modelled: terminal batches are finalized in ascending order.
- Dict key order is not modelled. JSON objects are maps. Validation errors are listed by ascending field order where the source follows insertion order (`JsonPreprocessor.Iterate`).
- Batch ids are strings. A non-string scalar batch id is rendered into a string by `BatchIdOf`.
- Collector.BatchIdOf: a float batch id is rendered as the exact ratio `num/den`, not as Python's `str` of the float (`1.5`). The model keeps floats as ratios and has no decimal printing. Integers, booleans and strings are rendered as Python renders them. The batch sets hold the rendered string, so the ids `1` and `"1"` are one batch in the model and two set members in Python; both write under the same keys. The reverse also happens: Python's sets treat `True` and `1` (and `1.0` and `1`) as one member, because they compare equal and hash alike, so Python records and finalizes only the one that came first and never summarizes the other's `per-step/` objects, while the model renders them as the distinct strings `True` and `1` (`1/1` for `1.0`) and finalizes both batches.
- Raw log saving is modelled only as one put of the delivery under its `raw-logs/` key. Its JSON indentation is not modelled.
- Aggregator.Contribution: a float row count raises in the model, where Python would add it.
- Aggregator.PyMin (and Aggregator.PyMax): only strings with strings and integers or booleans with each other are ordered. Python also orders floats against numbers and lists lexicographically, so a float or list `ts` gives the error summary only in the model.
- JsonValue.Show: lists print as `[...]`, dicts as `{...}` and floats as `num/den`, where Python's f-string prints `[1, 2]`, `{'a': 1}` and `1.5`. Only texts that format such a value differ: the notes of CsvFinalize.EvidenceJson and CsvFinalize.ErrorResponse (the batch id), the messages of Prevalidate.CheckFile (the key), JsonFinalizer.NoteParts and LogFinalizer.NoteParts and their `reason` texts (the status and counts), DynamoWriter.Note (the table), and LogCollector.Location (bucket and prefix). In AthenaExecutor.QualifiedName, two different list or dict table names therefore yield the same key of `run`.
- Floats are not modelled. Each ratio the source computes is an exact fraction:
  - success rates;
  - error rates;
  - the 90% threshold, which becomes 10·s ≥ 9·t.
- LogCollector.LevelOf: upper-casing is ASCII only. Python's `str.upper` also maps other scripts.
- AthenaExecutor.ParseInt: underscores between digits and non-ASCII digits are not accepted, though Python's `int()` accepts both.
- CsvFinalize.ValidationErrors: a non-empty dict given as `validation_errors` raises in the model.
- JsonPreprocessor.Repr: messages holding a backslash, a control character or both kinds of quote are not rendered as Python's `repr` would render them; the validation messages never hold them.
- DynamoWriter.WriteBatches: a failure of the batch writer's final flush is not modelled. Each item's outcome is given by the put function.
- DynamoWriter.EvidenceJson: `json.dumps` of an item is a parameter.
- LogCollector.Collect: the outer 500 path is not modelled. A read failure gives a zero-count report, so that path cannot occur in the model.
- `lambda_glue_crawler_runner.py`, `lambda_redshift_load.py` and the Glue job script are not part of this model, nor are the report generators. The model sees their outputs only as the inputs of the stages above.
