# Verification of the secret reverse proxy

A Dafny model of the Caddy middleware that authenticates, meters and bills LLM traffic
(`secret-reverse-proxy/`), with proofs of what it keeps over whole runs. `dafny verify dfyconfig.toml`
checks everything.

Where the Go code changes objects in place (accumulator, reporter, rate limiter, validator, body
handler, response writers, tokenizer registry) the model is a class whose methods are proved against
declarative predicates or functions; loops in functions are methods with loops. Where goroutines
interleave, each lock-protected section is one step of a state machine, and theorems quantify over all
runs.

| file | contents |
|---|---|
| `TokenMeter.dfy` | the accumulator, with its model tables as heap objects so that sharing is visible |
| `ReportRecords.dfy` | a flushed batch as records and as the payload of a POST |
| `UsagePipeline.dfy` | recording, flushing, submitting, persisting, retrying and discarding, as steps with a ledger |
| `TokenReporter.dfy` | the reporter object; its executions are runs of those steps |
| `RateLimiter.dfy`, `RateLimitRuns.dfy`, `RateLimitCleanup.dfy` | the fixed-window limiter, its bounds over runs, and when cleanup is invisible |
| `ApiKeyValidator.dfy`, `ValidatorThreads.dfy` | the validator alone, and with calls and cleanups interleaved |
| `ResponseParsing.dfy`, `ResponseTexts.dfy`, `ResponseCapture.dfy` | reading content, usage and model back from a captured response |
| `RequestRewriting.dfy`, `RequestTexts.dfy` | the two request injections and what the proxy reads from a request |
| `RequestFlow.dfy`, `RequestBilling.dfy`, `RequestHandlers.dfy` | the decisions of `ServeHTTP` and `serveX402` as traces, who is billed over any interleaving, and the handlers themselves |
| `RequestCounting.dfy` | what is billed without figures from the backend, and what is answered without the backend |
| `BodyCapture.dfy` | the bounded read loop and the capped response writer |
| `TokenizerRegistry.dfy`, `TokenizerLoading.dfy` | model name resolution, and double-checked loading under a read-write lock |
| `TokenCounting.dfy` | token counts of JSON documents |
| `MapSum.dfy`, `Text.dfy`, `Json.dfy`, `Wrappers.dfy` | sums over maps, Go's string functions, JSON values |

## The main results

1. **Conservation.** In every state of every run of the usage pipeline, for every API key, its total
   or any of its models, and every column, the tokens recorded are in the accumulator, in flight, in
   files, acknowledged with a 2xx, discarded, or overwritten on disk, and nowhere twice. Reading a report
   discards it exactly past its age or its retries. In the order of the reporting loop, which reads every
   file between two flushes, none is overwritten exactly when the metering URL parses and the pauses of
   two failed submissions add up to a second, that is, when R(R-1) backoffs do.
2. **Bounded retry.** No batch is POSTed more than `R + R * R` times, by a lexicographic measure.
3. **Rate limiting.** Used plus in flight never exceeds the limit by more than `(K - 1) * E`; any
   interval as long as a window, aligned with nothing, sees at most twice that. Over a whole session
   cleanups cannot be noticed if and only if none of the calls was one of two harmful kinds.
4. **Cached validation.** Under every interleaving an acceptance rests on a master key or on an answer
   the contract gave in that run, stored recently or during the call.
5. **Streams.** The readers undo the printer of event streams, whatever the fragmentation; from chunks and
   prompts built from given texts they return those texts.
6. **Rewriting.** The injections are idempotent, commute, keep every client value and change nothing
   the proxy itself reads.
7. **Billing.** Over any interleaving of any number of requests, each is billed once, on one channel,
   after its own checks; with exactly the backend's figures, under an exact condition, or else with the
   proxy's own counts, the input's of the request and the output's of the answer; and at every moment, composed with 1, the bills of the finished requests are accounted for down to the files.
8. **Bounded capture.** The truncation flag of a captured request body is right, for every way the reads
   can come in, if and only if the body's length avoids a stated interval.

## Assumptions

- One reporter owns the directory of failed reports, file writes and removals succeed, and the clock
  never goes back. Reports found at start-up were left by a reporter with the same settings.
- The JSON library is an abstract parser and printer with the laws of `Json.Lawful`: parsing undoes
  printing, and printed values have no line break or surrounding space. Numbers are exact decimals in
  lowest terms, so that one number has one text. A failed report read back
  from its file is the report written.
- SHA-256, the EIP-191 signature check, the contract query, the portal's balance, the backend, the
  tokenizers and the clock are parameters.
- The rate limiter's clients record after their own check, and no more than they estimated.

## Where code and documentation disagree

The model follows the code.

- `README.md:341-342` and `secret-reverse-proxy/Readme.md:146-147` make `max_retries` and `retry_backoff`
  settings with exponential backoff; `NewResilientReporter` fixes three attempts and five minutes, and
  the pause grows linearly (`secret-reverse-proxy/token_reporter.go:36-47`, `:215`).
- The comment on `extractUsageFromResponse` expects the usage in the final chunk; the code takes the
  first chunk with a non-zero count. The bill is what the last figures say exactly when the first say
  the same, as when they come once; otherwise the difference goes unbilled
  (`RequestBilling.StreamBilledAsLastIff`; figures of 5 and 1, then 5 and 9, in
  `RequestBilling.EarlyFiguresAreBilled`).
- A body that its last read brings just past the buffer limit is flagged truncated although it was
  caught whole; the flag is right, however the reads come in, exactly when the body fits the buffer or
  is longer than any one read from within it can reach (`BodyCapture.FlagIsRightIff`).
- "Cached billed separately", says the comment at `secret-reverse-proxy/secret_reverse_proxy.go:606`, but the
  guard of the recording does not look at cached tokens: a prompt answered wholly from the cache, with
  nothing generated, is not recorded at all (`RequestBilling.CachedPromptIsUnbilled`). More cached
  than prompted tokens make the recorded input negative (`RequestBilling.OvercachedPromptIsCredited`).
  `RequestBilling.FiguresBilledIff` gives both conditions. Reports for agents never hold cached tokens.
- A JSON body `null` leaves a nil map, and `injectRequestDefaults` writes to it
  (`RequestRewriting.PanicsIff`).
- `SetCustomMapping` stores a name with a colon or surrounding space as it is; lookups clean it first
  and never find it (`TokenizerRegistry.CustomMappingFoundIff`).
- `PeekUsage` is described as a snapshot, but shares the model tables with the live entries
  (`TokenMeter.PeekThenRecord`).

## Model

| member | source | states |
|---|---|---|
| `TokenMeter.TokenAccumulator.constructor` | secret-reverse-proxy/token_meter.go:32-36 | a new accumulator is empty and owns nothing but itself |
| `TokenMeter.TokenAccumulator.RecordUsageWithModel` | secret-reverse-proxy/token_meter.go:44-72 | the contents become exactly the old contents with the counts added to the key's totals and to its model, the entry being made if it is missing; every other key and every object identity is as before; totals still equal the model sums |
| `TokenMeter.TokenAccumulator.RecordUsage` | secret-reverse-proxy/token_meter.go:39-41 | a recording without a model is a recording for the model "unknown" with no cached tokens |
| `TokenMeter.TokenAccumulator.FlushUsage` | secret-reverse-proxy/token_meter.go:75-87 | returns exactly the old contents, totals matching, and leaves the accumulator empty; the flushed model tables leave its representation and no two keys share one |
| `TokenMeter.TokenAccumulator.PeekUsage` | secret-reverse-proxy/token_meter.go:90-99 | the snapshot reads as the contents, and refers to the very same model tables |
| `TokenMeter.RecordedKeepsTotals` | secret-reverse-proxy/token_meter.go:49-71 | one recording, for any key, model and counts, keeps every key's input, output and cached totals equal to the sums over its models |
| `TokenMeter.RecordedMeans` | secret-reverse-proxy/token_meter.go:44-72 | column by column: the key's totals and its model's grow by the counts and it was last updated now; every other model of the key and every other key is as it was |
| `TokenMeter.FlushThenRecord` | secret-reverse-proxy/token_meter.go:75-87 | after any sequence of later recordings the flushed batch still reads as the contents at the flush, although the copy is shallow, and the recordings are all in the new accumulation |
| `TokenMeter.PeekThenRecord` | secret-reverse-proxy/token_meter.go:90-99 | after any recordings each key of a snapshot has kept its totals and time but shows the live model table; its totals match its models exactly when the live totals have come back to what they were |
| `TokenMeter.TableUnchangedIff` | secret-reverse-proxy/token_meter.go:55-71 | a recording leaves the shared model table as it was exactly when it adds nothing to a model already there |
| `ReportRecords.BuildRecords` | secret-reverse-proxy/token_reporter.go:120-147 | for every iteration order, each key of the batch is listed once, with its totals, its timestamp in whole seconds and its models |
| `ReportRecords.BuildModelUsage` | secret-reverse-proxy/token_reporter.go:130-141 | the record gets a copy of the model table, and no field when the table is empty |
| `ReportRecords.BuildUsageData` | secret-reverse-proxy/token_reporter.go:154-172 | the payload is what inserting the records in order gives, a later one for a key replacing an earlier one |
| `ReportRecords.PayloadIsBatch` | secret-reverse-proxy/token_reporter.go:120-172 | from batch to payload nothing is lost, merged or overwritten, for every iteration order |
| `ReportRecords.BatchRoundTrip` | secret-reverse-proxy/token_reporter.go:120-172 | the batch can be read back from the payload, up to the fractions of a second in its timestamps |
| `ReportRecords.BatchCellIsUsageCell` | secret-reverse-proxy/token_reporter.go:120-147 | every cell (key, total or model, column) of the records equals the flushed usage's |
| `UsagePipeline.Conservation` | secret-reverse-proxy/token_reporter.go:106-331 | in every state of every run and for every cell: recorded plus on disk at the start equals accumulator plus in flight plus files plus acknowledged plus discarded plus overwritten |
| `UsagePipeline.StepBalances` | secret-reverse-proxy/token_reporter.go:106-331 | each single step changes what is accounted for by exactly what it records |
| `UsagePipeline.TotalsAlwaysMatch` | secret-reverse-proxy/token_meter.go:44-87 | in every state of every run each key's totals are the sums over its models |
| `UsagePipeline.DiscardsAreExpired` | secret-reverse-proxy/token_reporter.go:300-312 | in every run, a batch is discarded only when older than 24 hours or with its retries used up |
| `UsagePipeline.ReadingDiscardsIff` | secret-reverse-proxy/token_reporter.go:284-312 | in every run, reading a file removes it and discards its report exactly when that is more than 86 400 000 000 000 ns old or out of retries, and otherwise starts re-submitting its records |
| `UsagePipeline.PostsAreBounded` | secret-reverse-proxy/token_reporter.go:149-331 | in every run no batch is ever POSTed more than R + R*R times, in flight, on disk or acknowledged |
| `UsagePipeline.FailedPostDescends` | secret-reverse-proxy/token_reporter.go:209-331 | a failed POST decreases the pair (submissions left, POSTs left) lexicographically, keeping the batch: within the submission, or in the file whose next submission has fewer after it |
| `UsagePipeline.SleptClosedForm` | secret-reverse-proxy/token_reporter.go:211-231 | a submission that has failed `n` times has slept exactly backoff * n(n+1)/2 |
| `UsagePipeline.OverwritingRun` | secret-reverse-proxy/token_reporter.go:66-83 | for any settings under which files do not stay apart, a concrete run of the reporting loop, from an empty directory, in which a report that has been re-submitted once is replaced by the next batch's and a token is lost |
| `UsagePipeline.NeverOverwritesIff` | secret-reverse-proxy/token_reporter.go:66-331 | no run of the reporting loop ever overwrites a failed report if and only if the URL parses and the pauses of two failed submissions add up to a second |
| `UsagePipeline.LoopRunKeepsBehind` | secret-reverse-proxy/token_reporter.go:66-331 | in every state of every run of the reporting loop, with such settings, nothing has been overwritten and every file that was read again has a name at least one failed submission behind the clock |
| `UsagePipeline.FilesStayApartIff` | secret-reverse-proxy/token_reporter.go:209-231 | that condition in closed form: the URL parses and backoff * R(R-1) is at least a second |
| `UsagePipeline.ShortPausesSuffice` | secret-reverse-proxy/token_reporter.go:209-231 | two attempts with six tenths of a second between them meet it, although one failed submission then takes less than a second |
| `UsagePipeline.SlowFailuresNeverOverwrite` | secret-reverse-proxy/token_reporter.go:244-331 | with files read in any order or not at all, a full second of pauses in one failed submission is enough |
| `UsagePipeline.DefaultsNeverOverwrite` | secret-reverse-proxy/token_reporter.go:36-47 | three attempts and five minutes meet the condition exactly when the URL parses |
| `TokenReporter.ResilientReporter.constructor` | secret-reverse-proxy/token_reporter.go:36-47 | a new reporter has sent nothing, keeps the files it found, and stands at the start of a run |
| `TokenReporter.ResilientReporter.Record` | secret-reverse-proxy/token_meter.go:44-72 | a recording between the reporter's activities is a Record step of its run |
| `TokenReporter.ResilientReporter.SubmitWithRetry` | secret-reverse-proxy/token_reporter.go:149-242 | every POST carries the payload of the records; it succeeds only on a 2xx; a failure has made every attempt left and slept exactly the linear backoff between them, or sent nothing because the URL does not parse; nothing else changes |
| `TokenReporter.ResilientReporter.PersistFailedReport` | secret-reverse-proxy/token_reporter.go:244-268 | one file named after the current second holds the records, stamped before writing, with no retries |
| `TokenReporter.ResilientReporter.FlushIntoRecords` | secret-reverse-proxy/token_reporter.go:106-113 | takes everything accumulated into a list of records, or nothing when there was nothing |
| `TokenReporter.ResilientReporter.ProcessCurrentUsage` | secret-reverse-proxy/token_reporter.go:106-118 | everything accumulated is either acknowledged, with the traffic ending in a 2xx, or in a file after only failures; the accumulator is empty |
| `TokenReporter.ResilientReporter.Resubmit` | secret-reverse-proxy/token_reporter.go:313-331 | a re-submitted report is removed after a 2xx and its records acknowledged, and otherwise rewritten with one more retry |
| `TokenReporter.ResilientReporter.RetryFailedReport` | secret-reverse-proxy/token_reporter.go:284-331 | a report more than 86 400 000 000 000 ns old or out of retries is removed without a POST and is the last one discarded; any other is not discarded, is POSTed if the URL parses, and is removed and counted as acknowledged if that succeeded, and rewritten with one more retry if not |
| `TokenReporter.ResilientReporter.RetryFailedReports` | secret-reverse-proxy/token_reporter.go:270-282 | one pass over the directory: no file appears, each that stays has one more retry and is otherwise as it was, and each that is gone was acknowledged or discarded in this pass; every POST of the pass carries one of its reports, and there are at most R for each |
| `TokenReporter.ResilientReporter.Conserves` | secret-reverse-proxy/token_reporter.go:106-331 | conservation read off the object: whatever was recorded through it is in its accumulator, its directory or its ledger |
| `RateLimiter.TokenRateLimiter.CheckWindow` | secret-reverse-proxy/metering/token_rate_limiter.go:109-135 | one window: renewed if past its reset time, used counts unchanged otherwise; rejected exactly when used plus estimate exceed the limit, with the remaining count and reset time reported |
| `RateLimiter.TokenRateLimiter.CheckRateLimit` | secret-reverse-proxy/metering/token_rate_limiter.go:44-80 | allowed exactly when every configured window has room; otherwise rejected by the first that has not, later ones not being looked at; only looked-at windows are renewed and other keys are untouched |
| `RateLimiter.TokenRateLimiter.UpdateWindow` | secret-reverse-proxy/metering/token_rate_limiter.go:137-151 | charges a live window and replaces one past its reset time by a fresh one with only this usage, without a limit check |
| `RateLimiter.TokenRateLimiter.RecordUsage` | secret-reverse-proxy/metering/token_rate_limiter.go:83-107 | charges every configured window of a key that has an entry, and nothing at all for a key that has none |
| `RateLimiter.TokenRateLimiter.CleanupExpiredWindows` | secret-reverse-proxy/metering/token_rate_limiter.go:154-185 | drops exactly the windows at or past their reset time, and the keys left with none |
| `RateLimiter.TokenRateLimiter.GetRateLimitStatus` | secret-reverse-proxy/metering/token_rate_limiter.go:188-223 | reports exactly the windows before their reset time, with used, limit, remaining and reset |
| `RateLimiter.WindowLasts` | secret-reverse-proxy/metering/token_rate_limiter.go:44-151 | for each kind alone, in nanoseconds: what was used counts up to and including the end of the minute, hour or day, which a rejection reports; one nanosecond later any request within the limit is let in |
| `RateLimiter.ShortestFirst` | secret-reverse-proxy/metering/token_rate_limiter.go:44-80 | with all three limits set, a rejection is the minute's if that is exceeded, else the hour's, else the day's |
| `RateLimiter.StatusLasts` | secret-reverse-proxy/metering/token_rate_limiter.go:188-223 | the status shows a window, with what is left of it, before its end and not at it |
| `RateLimiter.CleanupLasts` | secret-reverse-proxy/metering/token_rate_limiter.go:154-185 | a cleanup leaves a window before its end, and takes it with its key from that instant on |
| `RateLimitRuns.InFlightBound` | secret-reverse-proxy/metering/token_rate_limiter.go:44-185 | in every reachable state, with at most K requests of a key in flight, each estimated at most E: used plus in flight is at most limit + (K-1)E, across resets by check, by record and by cleanup |
| `RateLimitRuns.AlternatingNeverExceeds` | secret-reverse-proxy/metering/token_rate_limiter.go:44-151 | with checks and records strictly alternating no window is ever over its limit |
| `RateLimitRuns.SlidingIntervalBound` | secret-reverse-proxy/metering/token_rate_limiter.go:109-151 | the tokens recorded for a key in any half-open interval of one window length are at most 2(limit + (K-1)E) |
| `RateLimitCleanup.CheckAnswersAgree` | secret-reverse-proxy/metering/token_rate_limiter.go:44-80 | a check on a limiter missing only windows past their reset gives the same verdict, kind and message figures |
| `RateLimitCleanup.CleanupSimulatesIff` | secret-reverse-proxy/metering/token_rate_limiter.go:154-185 | one cleanup keeps the two limiters equivalent exactly when no window resets at that very instant |
| `RateLimitCleanup.RecordSimulatesIff` | secret-reverse-proxy/metering/token_rate_limiter.go:83-107 | one recording keeps the two limiters equivalent exactly when the cleaned one still has the key, the other has not, or no limit is configured |
| `RateLimitCleanup.CleanupIsInvisible` | secret-reverse-proxy/metering/token_rate_limiter.go:83-223 | over whole sessions, with cleanups anywhere but at an exact reset time or between a key's emptying and a record that would charge it, all verdicts and statuses equal those of a limiter that never cleans up |
| `RateLimitCleanup.CleanupUnnoticedIff` | secret-reverse-proxy/metering/token_rate_limiter.go:44-223 | over a whole session no call was harmful if and only if at no point could a client, by a status or by a check, a record and a status, tell the cleaned limiter from the other |
| `RateLimitCleanup.CleanupAtResetTime` | secret-reverse-proxy/metering/token_rate_limiter.go:109-185 | at its exact reset time a used-up window rejects, and after a cleanup at that instant the same request is let in |
| `RateLimitCleanup.CleanupBeforeRecord` | secret-reverse-proxy/metering/token_rate_limiter.go:83-90 | usage recorded after a cleanup emptied the key is dropped: the next check is allowed exactly when there was a cleanup |
| `ApiKeyValidator.APIKeyValidator.CheckMasterKeys` | secret-reverse-proxy/validators/api_key_validator.go:190-239 | true exactly for a non-empty key that is the trimmed text of a line of a configured file that opens, or of a part between commas of the environment, the latter unless the file stops the check; an error exactly when a configured file is there but cannot be opened, or breaks off before the key is seen |
| `ApiKeyValidator.APIKeyValidator.IsMasterKey` | secret-reverse-proxy/validators/api_key_validator.go:176-188 | true exactly when validation would accept the key before looking at the cache |
| `ApiKeyValidator.BeforeCacheMeans` | secret-reverse-proxy/validators/api_key_validator.go:79-120 | a blank key is an error; the configured key is accepted without looking further; any other is judged by file and environment as above |
| `ApiKeyValidator.AnswersAreListed` | secret-reverse-proxy/validators/api_key_validator.go:282-322 | the keys an answer of the contract lists are exactly its non-empty hashes; an answer without the list lists nothing |
| `ApiKeyValidator.APIKeyValidator.UpdateAPIKeyCache` | secret-reverse-proxy/validators/api_key_validator.go:242-329 | a failed query or malformed answer changes neither cache nor time; any other makes the cache exactly the non-empty string `hashed_key` values |
| `ApiKeyValidator.APIKeyValidator.CleanupCache` | secret-reverse-proxy/validators/api_key_validator.go:165-169 | empties the cache and leaves the time of the last update |
| `ApiKeyValidator.APIKeyValidator.ValidateAPIKey` | secret-reverse-proxy/validators/api_key_validator.go:79-162 | one undisturbed call: master keys first, then a fresh cache entry, then the contract; result, cache and time in every case, errors included |
| `ValidatorThreads.AcceptanceIsSafe` | secret-reverse-proxy/validators/api_key_validator.go:79-169 | under every interleaving of calls, stores and cleanups, true means a master key, or a hash listed in an answer the contract gave to some call of the run, which that call stored within the TTL before the lookup, or during this call before its final reading |
| `ValidatorThreads.RejectionIsFresh` | secret-reverse-proxy/validators/api_key_validator.go:121-162 | a rejection without error rests on an answer stored during the same call and not listing the key, unless a cleanup came between |
| `ValidatorThreads.CacheMirrorsContract` | secret-reverse-proxy/validators/api_key_validator.go:165-329 | in every reachable state the cache is empty or exactly the keys of the answer stored last |
| `ResponseParsing.ExtractResponseContent` | secret-reverse-proxy/secret_reverse_proxy.go:1446-1490 | the concatenation, in order, of the delta texts of all data lines, or of the message texts of a plain response |
| `ResponseParsing.ExtractUsageFromResponse` | secret-reverse-proxy/secret_reverse_proxy.go:1391-1440 | the usage of the first data line that has any, or of a plain response |
| `ResponseParsing.DetectModelFromResponseBody` | secret-reverse-proxy/secret_reverse_proxy.go:1559-1581 | the first non-empty model on a data line or on a line that is an object, else "unknown" |
| `ResponseParsing.StreamContentReadBack` | secret-reverse-proxy/secret_reverse_proxy.go:1446-1490 | for any chunks printed as data lines, with LF or CRLF, gaps, comments, events and end markers between, the content read back is all delta texts in order |
| `ResponseParsing.StreamUsageReadBack` | secret-reverse-proxy/secret_reverse_proxy.go:1391-1440 | of such a stream, the usage read back is that of the first chunk with a non-zero prompt or completion count |
| `ResponseParsing.StreamModelReadBack` | secret-reverse-proxy/secret_reverse_proxy.go:1559-1581 | of such a stream, the model read back is the first non-empty one, else "unknown" |
| `ResponseParsing.UsageAmongIsFirst` | secret-reverse-proxy/secret_reverse_proxy.go:1424-1439 | that usage is some chunk's and no earlier chunk has any; there is none exactly when no chunk has |
| `ResponseParsing.LastUsageAmongIsLast` | secret-reverse-proxy/secret_reverse_proxy.go:1386-1390 | the last usage is some chunk's and no later chunk has any; there is none exactly when no chunk has |
| `ResponseParsing.PlainReadBack` | secret-reverse-proxy/secret_reverse_proxy.go:1418-1422 | a plain JSON response followed by spaces reads back too |
| `ResponseTexts.StreamedTextsReadBack` | secret-reverse-proxy/secret_reverse_proxy.go:1446-1490 | for every list of chunks, each built from the texts of its choices under `choices`, `delta` and `content`, the content read from the printed stream is those texts in order; a choice without a string there adds nothing |
| `ResponseTexts.PlainTextsReadBack` | secret-reverse-proxy/secret_reverse_proxy.go:1446-1490 | the same of a plain response and `message` |
| `ResponseTexts.UsageReadsBack` | secret-reverse-proxy/secret_reverse_proxy.go:1391-1440 | the figures written under `usage` are the figures read, whatever else is there; two zero counts are no figures |
| `ResponseTexts.MissingCounts` | secret-reverse-proxy/secret_reverse_proxy.go:1391-1416 | a missing count is zero, and without `usage` there are no figures |
| `ResponseTexts.ModelReadsBack` | secret-reverse-proxy/secret_reverse_proxy.go:1559-1581 | the model read is the non-empty string under `model` |
| `Json.ToIntTruncates` | secret-reverse-proxy/secret_reverse_proxy.go:1401-1406 | a count is a number cut off toward zero, and anything else is zero |
| `ResponseCapture.TokenMeteringResponseWriter.Write` | secret-reverse-proxy/token_writer.go:31-34 | buffers everything it is given, however much the wrapped writer accepts |
| `ResponseCapture.TokenMeteringResponseWriter.WriteAll` | secret-reverse-proxy/token_writer.go:31-34 | the capture is the concatenation of the writes |
| `ResponseCapture.TokenMeteringResponseWriter.WriteHeader` | secret-reverse-proxy/token_writer.go:37-49 | the status is then the one written |
| `ResponseCapture.CaptureAndRead` | secret-reverse-proxy/token_writer.go:31-54 | from the backend's chunks through the writer to the three readings: no dependence on where the writes were cut |
| `RequestRewriting.InjectRequestDefaults` | secret-reverse-proxy/secret_reverse_proxy.go:1622-1675 | adds `think` and `options.num_predict` where absent, prints a new body only if something changed, leaves anything but an object alone and panics on null |
| `RequestRewriting.InjectStreamUsageOption` | secret-reverse-proxy/secret_reverse_proxy.go:1529-1555 | adds `stream_options.include_usage` to a streaming request without it, and leaves every other body alone |
| `RequestRewriting.ExtractRequestMessageContent` | secret-reverse-proxy/secret_reverse_proxy.go:1494-1524 | the texts and text blocks of all messages in order, then the system text, trimmed |
| `RequestRewriting.DefaultsChangeIff` | secret-reverse-proxy/secret_reverse_proxy.go:1622-1675 | the defaults change nothing exactly when each is present or switched off |
| `RequestRewriting.RewrittenDecodes` | secret-reverse-proxy/secret_reverse_proxy.go:1529-1675 | the rewritten body decodes to the edited object, and is the original body when nothing changed |
| `RequestRewriting.RewritingKeepsClientValues` | secret-reverse-proxy/secret_reverse_proxy.go:1529-1675 | only think, options and stream_options can differ, and every value the client gave is kept, inside options and stream_options when these are objects |
| `RequestRewriting.EditsAreIdempotentAndCommute` | secret-reverse-proxy/secret_reverse_proxy.go:1529-1675 | on objects, each edit twice is once, and their order does not matter |
| `RequestRewriting.RewritingIsIdempotent` | secret-reverse-proxy/secret_reverse_proxy.go:1529-1675 | rewriting a rewritten body changes nothing, to the letter |
| `RequestRewriting.InjectionsCommute` | secret-reverse-proxy/secret_reverse_proxy.go:1529-1675 | the two injections commute, to the letter |
| `RequestRewriting.RewritingPreservesReadings` | secret-reverse-proxy/secret_reverse_proxy.go:1494-1613 | model and message text read from the rewritten body are those of the original |
| `RequestRewriting.StreamingAsksForUsage` | secret-reverse-proxy/secret_reverse_proxy.go:1529-1555 | a streaming request reaches the backend with `include_usage`, the client's own value if it gave one |
| `RequestRewriting.PanicsIff` | secret-reverse-proxy/secret_reverse_proxy.go:1622-1640 | the only body that panics is the literal null, with a JSON content type and a default configured; any other that is not an object is sent as it is |
| `RequestTexts.PromptReadsBack` | secret-reverse-proxy/secret_reverse_proxy.go:1494-1524 | for every list of messages, each built from a text, from text blocks among other blocks, or without words, the prompt read is every text with a line break after it, then the system text, trimmed |
| `RequestTexts.NoPrompt` | secret-reverse-proxy/secret_reverse_proxy.go:1494-1500 | a request without messages and system text, or a body that is no object, has no prompt |
| `RequestTexts.ModelReadsBack` | secret-reverse-proxy/secret_reverse_proxy.go:1592-1613 | of a JSON request, the model is the non-empty string under `model`, and "unknown" otherwise or for another content type |
| `RequestTexts.JsonTypeIff` | secret-reverse-proxy/secret_reverse_proxy.go:1593-1597 | a content type is JSON when it contains "application/json" in any case |
| `RequestTexts.EditsWrite` | secret-reverse-proxy/secret_reverse_proxy.go:1529-1675 | the values put in: `think` is the default or, for "off", false; `num_predict` is the configured number; `include_usage` is true; each only where it is missing |
| `RequestTexts.SentAsCameIff` | secret-reverse-proxy/secret_reverse_proxy.go:1529-1675 | an object goes out as it came, to the letter, exactly when its type is not JSON or there is nothing to put in |
| `RequestHandlers.ServeHTTP` | secret-reverse-proxy/secret_reverse_proxy.go:391-649 | at most one bill, on the request's own channel and for its own wallet or key; nothing forwarded before a good signature or key check, and a sufficient balance if an agent names a model; the backend's figures billed when it gives some; the effects in order are the request's trace |
| `RequestHandlers.ServeX402` | secret-reverse-proxy/secret_reverse_proxy.go:1041-1189 | the same for an agent's request: at most one report, for its wallet; forwarded once, after signature and balance; the backend's figures reported |
| `RequestBilling.BilledOnce` | secret-reverse-proxy/secret_reverse_proxy.go:391-1189 | the bills in a request's trace are exactly its bill: an agent's answered request that names a model is reported once, a keyed one recorded once if a model is known and something was counted, nothing else is billed |
| `RequestBilling.OneChannel` | secret-reverse-proxy/secret_reverse_proxy.go:636-1186 | at most one bill per request; an agent's is a report for its wallet and always made for an answered request with a model, any other's a recording under its own key's hash |
| `RequestBilling.BackendFiguresAreBilled` | secret-reverse-proxy/secret_reverse_proxy.go:603-617 | whenever an answered request comes with usage: an agent's report has prompt minus cached and the completion; a keyed request is recorded with figures whose input plus cached is the prompt, or, when all of the prompt was cached and nothing generated, not at all |
| `RequestBilling.FiguresBilledIff` | secret-reverse-proxy/secret_reverse_proxy.go:603-636 | for every forwarded keyed request answered with usage, a known model and an accumulator: the bill is the backend's figures if and only if prompt > cached or completion > 0, there is none otherwise, and its input is negative exactly when cached > prompt |
| `RequestBilling.CachedPromptIsUnbilled` | secret-reverse-proxy/secret_reverse_proxy.go:630-636 | a concrete answer with five prompt tokens, all cached, and none generated: no bill |
| `RequestBilling.OvercachedPromptIsCredited` | secret-reverse-proxy/secret_reverse_proxy.go:603-636 | a concrete answer with three prompt and ten cached tokens: minus seven are recorded |
| `RequestBilling.GatesComeFirst` | secret-reverse-proxy/secret_reverse_proxy.go:1062-1117 | a request is forwarded at most once, after its signature (agents) or key check, and after a sufficient balance if an agent names a model |
| `RequestBilling.AgentForwardedIff` | secret-reverse-proxy/secret_reverse_proxy.go:1041-1117 | an agent's request is forwarded if and only if body, timestamp and signature are good and, if it names a model, the balance is at least the minimum |
| `RequestBilling.KeyForwardedIff` | secret-reverse-proxy/secret_reverse_proxy.go:405-582 | a keyed request is forwarded if and only if it is not blocked, the key is accepted, the balance is not known to be too low and the body is not a JSON null with a default configured |
| `RequestBilling.ForwardedIsSent` | secret-reverse-proxy/secret_reverse_proxy.go:572-585 | the body in a trace's forwarding is the rewriting of the captured one, with the operator's defaults for keys and without for agents |
| `RequestBilling.ForwardedKeepsClientValues` | secret-reverse-proxy/secret_reverse_proxy.go:572-1130 | whatever a request forwards of a captured object keeps the client's values and, when streaming, asks for usage; any other body goes as captured |
| `RequestBilling.WholeBodyIsForwarded` | secret-reverse-proxy/secret_reverse_proxy.go:1262-1289 | a body at most one byte over the buffer limit is forwarded whole, rewritten as above, however it came in |
| `RequestBilling.CapturedWholeIff` | secret-reverse-proxy/secret_reverse_proxy.go:1262-1289 | for all limits and bodies: what there is to rewrite and forward is the whole body, in every fragmentation, if and only if it is at most one byte over the buffer limit |
| `RequestBilling.CapturedOfSigned` | secret-reverse-proxy/secret_reverse_proxy.go:1047-1060 | what is captured of an agent's request is a beginning of the body its signature was checked on |
| `RequestBilling.EachInOrder` | secret-reverse-proxy/secret_reverse_proxy.go:391-1189 | in any interleaving each request's effects are a prefix of its own trace |
| `RequestBilling.NothingForwardedUnchecked` | secret-reverse-proxy/secret_reverse_proxy.go:391-1189 | in every run, whatever is forwarded was let through earlier by its own checks |
| `RequestBilling.InterleavingKeepsCharges` | secret-reverse-proxy/secret_reverse_proxy.go:391-1189 | in every run a meter shows the sum of what each request added on its own |
| `RequestBilling.FinishedRequestsAreBilledOnce` | secret-reverse-proxy/secret_reverse_proxy.go:391-1189 | at every moment of every interleaving, every cell of the accumulator and every wallet's charges equal the sum of the bills of the requests that have run to their end |
| `RequestBilling.EveryRequestBilledOnce` | secret-reverse-proxy/secret_reverse_proxy.go:391-1189 | when all requests are done, in any interleaving, every cell of the accumulator and every wallet's charges equal the sum of the requests' bills |
| `RequestBilling.IssuedIsAccounted` | secret-reverse-proxy/secret_reverse_proxy.go:636-645 | end to end, at any moment of any interleaving and of a pipeline run that has recorded its calls: the bills of the finished requests are accumulated, in flight, in files, acknowledged, discarded or overwritten |
| `RequestBilling.StreamedAnswerIsBilled` | secret-reverse-proxy/secret_reverse_proxy.go:603-617 | a streamed answer is billed the figures of its first chunk with usage, and otherwise the proxy's own counts |
| `RequestBilling.StreamBilledAsLastIff` | secret-reverse-proxy/secret_reverse_proxy.go:1386-1440 | for every stream with figures: the bill is that of the last figures if and only if the first are the same, as they are when figures come once; otherwise the tokens counted after the first figures go unbilled |
| `RequestBilling.EarlyFiguresAreBilled` | secret-reverse-proxy/secret_reverse_proxy.go:1424-1439 | a concrete stream with figures 5/1 and then 5/9 is billed 5/1 |
| `RequestBilling.StreamedTextIsCounted` | secret-reverse-proxy/secret_reverse_proxy.go:611-616 | the text counted for a streamed answer is all its delta texts in order, when there are any |
| `RequestCounting.KeyCounted` | secret-reverse-proxy/secret_reverse_proxy.go:558-636 | without figures a key is recorded with the count of its prompt as input and that of the reply as output, unless both are zero |
| `RequestCounting.AgentCounted` | secret-reverse-proxy/secret_reverse_proxy.go:1117-1186 | the same of an agent's report, which is made in any case |
| `RequestCounting.InputIgnoresAnswer` | secret-reverse-proxy/secret_reverse_proxy.go:558-617 | the input billed is the same for any other answer without figures |
| `RequestCounting.OutputIgnoresPrompt` | secret-reverse-proxy/secret_reverse_proxy.go:558-617 | the output billed is the same for any other prompt for the same model |
| `RequestCounting.KeyedVisit` | secret-reverse-proxy/secret_reverse_proxy.go:405-636 | a concrete keyed request, counted by length: a prompt of four characters and a reply of two are recorded as 4 and 2 |
| `RequestCounting.AgentVisit` | secret-reverse-proxy/secret_reverse_proxy.go:1041-1186 | the same of an agent's: reported as 4 and 2 |
| `RequestCounting.CountsAreSane` | secret-reverse-proxy/secret_reverse_proxy.go:1227-1259 | the counter's number is taken between zero and the length; below it is zero, above it half the length; for an agent's reply it is taken as it is |
| `RequestCounting.PromptCounted` | secret-reverse-proxy/secret_reverse_proxy.go:558-566 | what is counted of a request is the texts of its messages and system text, or the whole body when there are none |
| `RequestCounting.ReplyCounted` | secret-reverse-proxy/secret_reverse_proxy.go:611-616 | what is counted of a streamed answer is the texts of its chunks, or the whole stream when there are none |
| `RequestCounting.ModelBilled` | secret-reverse-proxy/secret_reverse_proxy.go:596-602 | the model billed to a key is the one its request names, and the answer's only when that names none |
| `RequestCounting.ApiKeyMeans` | secret-reverse-proxy/secret_reverse_proxy.go:1371-1384 | the key is what follows "Basic " or "Bearer ", or the whole header |
| `RequestCounting.BlockedIff` | secret-reverse-proxy/secret_reverse_proxy.go:429-454 | a URL is blocked exactly when it contains a pattern |
| `RequestCounting.AgentStops` | secret-reverse-proxy/secret_reverse_proxy.go:1041-1117 | the gates of an agent's request in order, with the status or challenge each answers |
| `RequestCounting.KeyStops` | secret-reverse-proxy/secret_reverse_proxy.go:391-515 | the gates of any other request in order, with the status each answers |
| `BodyCapture.BodyHandler.constructor` | secret-reverse-proxy/metering/request_body_handler.go:30-51 | limits default to 10 MB, and the buffer limit is the body limit but at most 5 MB |
| `BodyCapture.BodyHandler.SafeReadRequestBody` | secret-reverse-proxy/metering/request_body_handler.go:77-161 | for any read fragmentation the content is what the fragmentation determines: the prefix up to the read that passes the buffer limit, and what downstream re-reads; it is the whole body, flagged complete, exactly when that fits the buffer limit, and otherwise buffer limit < size <= min(buffer limit + 4096, body limit + 1); the later body-limit branch is dead |
| `BodyCapture.CaughtWholeYetFlagged` | secret-reverse-proxy/metering/request_body_handler.go:110-119 | a concrete body caught whole and still flagged truncated |
| `BodyCapture.FlagIsRightIff` | secret-reverse-proxy/metering/request_body_handler.go:100-139 | for all limits and bodies: in every fragmentation a flagged body was cut if and only if it fits the buffer limit or is longer than min(buffer limit + 4096, body limit + 1) |
| `BodyCapture.AlwaysWholeIff` | secret-reverse-proxy/metering/request_body_handler.go:100-139 | for all limits and bodies: every fragmentation catches the body whole if and only if it is at most one byte over the buffer limit |
| `BodyCapture.StreamingTokenMeteringResponseWriter.constructor` | secret-reverse-proxy/metering/request_body_handler.go:365-386 | empty, with 5 MB as the default cap |
| `BodyCapture.StreamingTokenMeteringResponseWriter.Write` | secret-reverse-proxy/metering/request_body_handler.go:392-423 | after any short or full write the buffer is exactly the first min(total, cap) bytes accepted downstream; the first write fixes the status |
| `BodyCapture.StreamingTokenMeteringResponseWriter.WriteHeader` | secret-reverse-proxy/metering/request_body_handler.go:425-445 | only the first call counts, and records the announced length |
| `BodyCapture.StreamingTokenMeteringResponseWriter.CompleteMeansNothingLost` | secret-reverse-proxy/metering/request_body_handler.go:458-466 | what the flag is worth: without an announced length it holds exactly below the cap; with one that is kept, exactly when all of it was captured; it misleads exactly when the backend overruns both the cap and an announced length within it |
| `TokenizerRegistry.AccurateTokenizer.constructor` | secret-reverse-proxy/metering/accurate_tokenizer.go:60-83 | the known names at start-up and the tokenizer of each |
| `TokenizerRegistry.AccurateTokenizer.NormalizeModelName` | secret-reverse-proxy/metering/accurate_tokenizer.go:141-178 | the longest known dash-delimited prefix of the cleaned name, else the cleaned name; the final first-word branch is dead |
| `TokenizerRegistry.NormalizedMeans` | secret-reverse-proxy/metering/accurate_tokenizer.go:141-178 | a name with spaces around it and a tag after its first colon resolves to the longest known beginning, in lower case, that ends before a dash or at its end, and to itself in lower case when none is known |
| `TokenizerRegistry.AccurateTokenizer.SetCustomMapping` | secret-reverse-proxy/metering/accurate_tokenizer.go:326-335 | sets exactly the lowered name |
| `TokenizerRegistry.LongestKnownIsLongest` | secret-reverse-proxy/metering/accurate_tokenizer.go:152-177 | the result is a known dash-delimited prefix and no longer one is known, or none is known at all |
| `TokenizerRegistry.SearchFindsLongest` | secret-reverse-proxy/metering/accurate_tokenizer.go:152-166 | dropping parts from the end until a name is known finds that prefix |
| `TokenizerRegistry.CustomMappingFoundIff` | secret-reverse-proxy/metering/accurate_tokenizer.go:326-335 | a custom mapping is found under its own name if and only if that has no colon and no surrounding space |
| `TokenizerLoading.LoadedAtMostOnce` | secret-reverse-proxy/metering/accurate_tokenizer.go:218-296 | under every interleaving each identifier is successfully loaded at most once |
| `TokenizerLoading.TableOnlyGrows` | secret-reverse-proxy/metering/accurate_tokenizer.go:218-296 | entries are never replaced or removed |
| `TokenizerLoading.CallersAgree` | secret-reverse-proxy/metering/accurate_tokenizer.go:218-296 | all successful callers for an identifier, whenever they return, get the one object that was loaded |
| `TokenizerLoading.WriterIsAlone` | secret-reverse-proxy/metering/accurate_tokenizer.go:218-296 | a thread with the write lock excludes all others from both locks |
| `TokenizerLoading.FailureLeavesNothing` | secret-reverse-proxy/metering/accurate_tokenizer.go:236-247 | a failed load leaves table and loads as they were, without the identifier |
| `TokenCounting.ExtractTextFromJSON` | secret-reverse-proxy/metering/token_counter.go:125-151 | in every iteration order the texts collected count up to the same number, a function of the document |
| `TokenCounting.CountJSONTokens` | secret-reverse-proxy/metering/token_counter.go:107-122 | that number for an object, zero for anything else |
| `TokenCounting.TextualKeysCountTwice` | secret-reverse-proxy/metering/token_counter.go:125-151 | each string counts once, and once more if it is itself the value of a textual key; nothing else counts |
| `TokenCounting.FieldAdds` | secret-reverse-proxy/metering/token_counter.go:125-151 | a new field of a document adds the count of its value, and a string under a textual key twice its count |
| `TokenCounting.PartsAdd` | secret-reverse-proxy/metering/token_counter.go:125-151 | a list counts the sum of its items, a string its text, and anything else nothing |
| `TokenCounting.TextTokensMeans` | secret-reverse-proxy/metering/token_counter.go:193-211 | words with gaps between and around count a quarter of their characters with single spaces between, but at least one; a blank text counts nothing |
| `TokenCounting.TextualNames` | secret-reverse-proxy/metering/token_counter.go:154-173 | the names of the textual keys, in any case |

## Left out

- Caddy provisioning, directive parsing, logging, metrics counters, TLS, HTTP transport and the docker files: no invariants of their own.
- Contract encryption, HMAC, EIP-191 recovery and SHA-256: library cryptography, here functions and answers of the world.
- The HuggingFace and SentencePiece tokenizers, `fallbackCount` and `countGenericTokens`: abstract functions or one-line estimates.
- `countJSONLikeTokens`: a regular expression over malformed JSON.
- 64-bit overflow of token counts, floating-point precision of JSON numbers and balances (and a balance of NaN), Unicode case folding, and UTF-8 decoding (texts are sequences of characters): numbers are unbounded and exact, lower-casing is ASCII.
- Gzip request bodies and the parsing of the body into `RequestBodyInfo.ParsedJSON`: decompression is another reader in front of the same loop.
- Starting and stopping the reporter's loop, several reporters on one directory, file operations that fail, and a crash between an acknowledgement and the removal of its file.
- The ticker of the reporting loop: a flush may come as soon as the pass before it is over, as when a tick is waiting.
- `StartCleanupLoop`, and calls of the rate limiter from the middleware: the limiter is not wired into `ServeHTTP`.
- `factories/factories.go`, `validators/testable_validator.go`, the reservation ledger of `x402.md`, the Python scripts and the router: copies, counters, or code that is not there.
- RateLimiter.TokenRateLimiter.CheckRateLimit: windows are map values, not references; the source never shares one between keys or kinds.
- TokenReporter.ResilientReporter.ProcessCurrentUsage: runs without recordings in between; the step system of `UsagePipeline` has them at every point.
- TokenMeter.TokenAccumulator.PeekUsage: no isolation is claimed, because there is none.
- RequestBilling.EveryRequestBilledOnce: a bill is the effect of handing it over; the portal's answer to a usage report is only logged by the source.
