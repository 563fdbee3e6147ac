# pLogger in Dafny

This project models the core of pLogger, a structured logging library for the browser.
An application calls a `pLogger` instance with a message and a level. The logger builds one
log record, which holds:

- the payload: the message, the static parameters, and an optional standard message;
- the caller's stack frame, when one is wanted.

The logger then checks its own severity threshold. If the level passes, it hands the record,
in order, to every registered handler whose own threshold admits the level. Two handlers
are modelled:

- the console logger, which renders the record with a `{{name}}` template and writes one line
  on the console channel of the level;
- the HTTP logger, which turns the record into a log object. It either sends the object at once,
  or collects it in a bucket that is flushed by size, by priority or by a debounce timer. Every
  request is retried with a doubling back-off on a fixed set of status codes.

One Dafny module per source file:

| module | file | form |
|---|---|---|
| `LogLevels` | `log_level.dfy` | the severity table: datatype and functions |
| `StackFrames` | `error_obj.dfy` | stack-text parsing: functions, plus the pattern loop as a method |
| `LogRecords` | `log_record.dfy` | the record: payload functions, plus class `LogRecord` with its lazily filled placeholder cache |
| `Logger` | `logger.dfy` | the template renderer (`Render`), plus class `BaseLogger` with level, template and `FormatLog` |
| `ConsoleTransport` | `console_logger.dfy` | the level-to-channel map, plus class `ConsoleLogger` with its console output |
| `HttpTransport` | `http_logger.dfy` | the bucket, timer and outbox as pure transitions (`Submit`, `Fire`), class `HttpLogger` proved against them, and the retry loop `SendRequest` proved equal to the recursive `Attempts` |
| `Dispatcher` | `p_logger.dfy` | class `PLogger`: handler list, parameters, standard messages, the dispatch loop |

`Wrappers` (Option), `Strings` (split, join, substring search, trim, decimal digits) and `Values`
(JavaScript values, `Error` objects, the plain-or-error message) are shared helpers.

The environment is passed in as parameters, never read:

- `Site`: `location.origin`, `navigator.userAgent`, and the two path regular expressions as an abstract `Matcher`.
- `Renderers`: `toISOString`, `getTimezoneOffset`, `String(date)`, and `jsonStringifyRecursive`.
- The current clock `now`, and the stack text a fresh `Error()` would carry (`callStack`).
- The server's successive responses, for the retry pipeline.

Class inheritance from the abstract `BaseLogger` is modelled by composition. Each transport and
the dispatcher holds `const base: BaseLogger`, and a handler is identified by that reference.

Where the code and its documentation disagree, the model follows the code:

- The static parameters are nested under the key `staticParams` of the payload, not spread into it
  (src/logs/log-record.ts:60).
- The record's timestamp always comes from the clock. The constructor tests the record's own
  `timestampGenerator` field, which is never assigned, instead of its argument
  (src/logs/log-record.ts:38-43).
- `timestampEpoch` is the `Date` object, so it renders as `String(date)`, not as an epoch number
  (src/logs/log-record.ts:77).
- A frame with no line number gets the text `undefined` in `filePathWithLine` and `fileNameWithLine`
  (src/logs/errorObj.ts:89-90).
- With batching, the size check also runs after a priority send, and the timer is armed even after
  a flush (src/http/http-logger.ts:105-119).
- A batch size of zero or less therefore flushes on every call, sending empty batches.
- Only lines containing `Error: `, with the trailing space, are dropped. The bare `Error` header of
  `Error().stack` is kept and counts towards the depth index (src/logs/errorObj.ts:108-110).

## Model

| member | source | states |
|---|---|---|
| LogLevels.Rank | src/logLevel.ts:19-26 | every rank lies in 0..5 and is the level's position in the list of six levels |
| LogLevels.InfoOf | src/logLevel.ts:19-26 | the table entry of a level carries its rank and its display name |
| LogLevels.Name | src/logLevel.ts:19-26 | definition: the display name of each level, as the table lists it |
| LogLevels.LevelAt | src/logLevel.ts:19-26 | the level stored at a rank has that rank, so it is the inverse of Rank |
| LogLevels.RanksAreExact | src/logLevel.ts:20-25 | Critical=0, Error=1, Warn=2, Info=3, Trace=4, Debug=5 |
| LogLevels.SixLevels | src/logLevel.ts:8-15 | there are exactly six levels, each listed once, each at the position of its rank |
| LogLevels.RankInjective | src/logLevel.ts:20-25 | distinct levels have distinct ranks, and LevelAt undoes Rank |
| LogLevels.SeverityIsTotalOrder | src/logLevel.ts:20-25 | comparing ranks is reflexive, antisymmetric, transitive and total on levels |
| LogLevels.NameIsUpperCaseOfValue | src/logLevel.ts:8-26 | each display name is the upper-case form of the enum value |
| Values.PropertyKey | src/p-logger/p-logger.ts:137-138 | a string message is its own key; arrays, objects and errors have no key the model resolves |
| StackFrames.StripQuery | src/logs/errorObj.ts:82 | the result is a prefix of the input ending just before a `?` whose remainder is on one line; without `?` nothing is removed |
| StackFrames.FileNameOf | src/logs/errorObj.ts:84-85 | the file name is the text after the last `/` of the path: all of it when there is no `/`, otherwise a `/`-free suffix that a `/` precedes |
| StackFrames.FrameOf | src/logs/errorObj.ts:81-90 | definition: the frame built from the groups of a match |
| StackFrames.FirstMatch | src/logs/errorObj.ts:77-93 | the pattern returned matches and no earlier one does; none is returned only when no pattern matches |
| StackFrames.StackLineToStackFrame | src/logs/errorObj.ts:60-97 | the loop over the patterns with `break` yields the frame of the first matching pattern, or the blank frame |
| StackFrames.LineFrame | src/logs/errorObj.ts:60-97 | definition: the frame `stackLineToStackFrame` returns, the blank one for a missing or unmatched line |
| StackFrames.LineFrameKeptIff | src/logs/errorObj.ts:76-93 | a line yields a non-blank frame exactly when some pattern matches its trimmed text, and then it has a file path |
| StackFrames.MissingLineIsBlank | src/logs/errorObj.ts:66-76 | an `undefined` line yields the all-undefined frame |
| StackFrames.PatternsTriedInOrder | src/logs/errorObj.ts:77-92 | the first pattern decides when it matches; the second only when the first fails |
| StackFrames.MatchedFrameFields | src/logs/errorObj.ts:82-90 | the path is the group without its query; the name is the last segment; the full path is origin + path; there is a `:line` suffix, with the text `undefined` when no line is given |
| StackFrames.DropHeaders | src/logs/errorObj.ts:50 | every line without `Error: ` is kept as many times as it occurs, and no header line is kept |
| StackFrames.DropHeadersAppend | src/logs/errorObj.ts:48-50 | the filter works line by line: the lines of two stretches are kept in their order, the first stretch's before the second's |
| StackFrames.KeepFrames | src/logs/errorObj.ts:51-57 | the reduce keeps no blank frame and at most one frame per line |
| StackFrames.KeepFramesAppend | src/logs/errorObj.ts:51-57 | the reduce works line by line: the frames of two stretches are kept in their order, the first stretch's before the second's |
| StackFrames.KeepFramesAllKept | src/logs/errorObj.ts:51-57 | when no frame is blank, every line contributes its own frame, in line order |
| StackFrames.KeepFramesNoneKept | src/logs/errorObj.ts:51-57 | when every frame is blank, the reduce gives the empty list |
| StackFrames.ParseFramesAllMatched | src/logs/errorObj.ts:51-57 | when every line matches a pattern, the trace lists the frame of each line, in order |
| StackFrames.ParseFramesNoneMatched | src/logs/errorObj.ts:51-57 | lines that no pattern matches contribute no frame |
| StackFrames.ParseFrames | src/logs/errorObj.ts:51-57 | definition: the non-blank frames of the lines, in line order |
| StackFrames.ParseFramesAreMatchedLines | src/logs/errorObj.ts:51-57 | for any mix of lines, the trace is the frame of each line some pattern matches, in line order, and nothing else |
| StackFrames.StackLines | src/logs/errorObj.ts:48-50 | definition: the lines of the stack text that are not error headers |
| StackFrames.ErrorTrace | src/logs/errorObj.ts:47-58 | the trace is undefined exactly when the error has no stack text |
| StackFrames.HeaderLineIsSkipped | src/logs/errorObj.ts:49-50 | a leading `Error: ` header line is removed before any parsing or indexing |
| StackFrames.ToErrorObject | src/logs/errorObj.ts:38-45 | the native error and message are kept; the name defaults to "Error" when it is nullish; there is a trace exactly when there is a stack |
| StackFrames.FirefoxReadsOneLineEarlier | src/logs/errorObj.ts:103-106 | on Firefox, depth d reads the line that depth d-1 reads elsewhere |
| StackFrames.DepthIndex | src/logs/errorObj.ts:103-106 | definition: the depth, one less on a Firefox user agent |
| StackFrames.CallerStackFrame | src/logs/errorObj.ts:99-112 | definition: the frame of the filtered stack line at the adjusted depth, or the blank frame |
| StackFrames.OutOfRangeDepthIsBlank | src/logs/errorObj.ts:107-111 | a missing stack or an index outside the filtered lines yields the blank frame |
| StackFrames.InRangeDepthReadsLine | src/logs/errorObj.ts:107-111 | in range, the frame is that of the filtered line at the adjusted index, which is not a header line |
| LogRecords.BuildPayload | src/logs/log-record.ts:60 | keys are the message's, `staticParams` and the enum message's; enum fields win; the parameters stay nested; other message fields are kept |
| LogRecords.NormalizeMessage | src/logs/log-record.ts:46-58 | definition: the fields and metadata a plain or Error message brings |
| LogRecords.BuildRecord | src/logs/log-record.ts:26-63 | definition: the record the constructor builds |
| LogRecords.PlainPayload | src/logs/log-record.ts:55-62 | a plain message is stored under `message`, the parameters nested, the enum fields last; there is no metadata; level, scope, formatter, clock time and raw message are stored as given |
| LogRecords.ErrorPayloadKeys | src/logs/log-record.ts:49-60 | an Error contributes exactly `nativeError`, `name` and `message`, next to `staticParams` and the enum fields, and never `stack` |
| LogRecords.ErrorPayload | src/logs/log-record.ts:49-53 | unless an enum message overrides them, `name` is the error's name defaulting to "Error", `message` is its message and `nativeError` the error itself; the raw message is the error |
| LogRecords.ErrorMetaData | src/logs/log-record.ts:50-52 | the metadata of an Error record is the frame list parsed from its stack text, and absent without one |
| LogRecords.PlaceholdersOf | src/logs/log-record.ts:69-108 | definition: the value of every placeholder name |
| LogRecords.PlaceholderKeys | src/logs/log-record.ts:69-107 | the placeholder map has exactly the twelve names the method assigns |
| LogRecords.PlaceholderValues | src/logs/log-record.ts:73-81 | level name and rank come from the table (rank "0" for Critical), and the rank text reads back as the rank; scope is the record's |
| LogRecords.FilePlaceholders | src/logs/log-record.ts:92-107 | each of `fullFilePath`, `fileNameWithLine`, `filePathWithLine` and `method` is that field of the selected frame, or "" when the field or the frame is missing |
| LogRecords.SelectedFrame | src/logs/log-record.ts:92-97 | definition: the frame the file placeholders read |
| LogRecords.SelectedFrameCases | src/logs/log-record.ts:92-97 | the selected frame is the first of a list or the single frame; there is none exactly when the metadata is absent or an empty list |
| LogRecords.LogRecord.constructor | src/logs/log-record.ts:26-63 | the record is the one BuildRecord describes, its timestamp the clock's, its cache empty |
| LogRecords.LogRecord.FetchCallStack | src/logs/log-record.ts:65-67 | the metadata becomes the caller frame and nothing else changes |
| LogRecords.LogRecord.GenerateFormatPlaceholders | src/logs/log-record.ts:69-108 | the cache holds PlaceholdersOf the unchanged record |
| LogRecords.LogRecord.GetFormatPlaceholders | src/logs/log-record.ts:110-115 | the map is built on the first call only; a filled cache is returned unchanged |
| Logger.Lookup | src/Logger.ts:52-54 | a non-null value is substituted as it is, falsy ones included; a null or unknown name gives "" |
| Logger.CloseFrom | src/Logger.ts:51 | definition: the end of the lazy `(.+?)` group: the nearest `}}` after at least one character on the same line |
| Logger.TokenAt | src/Logger.ts:51 | definition: the placeholder name and length when a match starts at the front of the text |
| Logger.Render | src/Logger.ts:51-55 | definition: the global replace, scanning left to right and resuming after each substitution |
| Logger.CloseFromSpec | src/Logger.ts:51 | the lazy group ends at the nearest `}}` on the same line, and no end exists when none is found |
| Logger.RenderNoToken | src/Logger.ts:51 | a template without a placeholder match is returned unchanged |
| Logger.RenderToken | src/Logger.ts:51-55 | a placeholder is replaced by its value, and scanning resumes after it |
| Logger.RenderPlainChar | src/Logger.ts:51 | a character other than `{` cannot start a match and is copied |
| Logger.RenderPlain | src/Logger.ts:51 | text without `{` is copied unchanged |
| Logger.AdjacentPlaceholders | src/Logger.ts:51-55 | `{{a}}{{b}}` is two placeholders, each replaced by its value |
| Logger.UnknownPlaceholderIsEmpty | src/Logger.ts:51-55 | a placeholder the map does not know becomes "" |
| Logger.SubstitutionIsNotRescanned | src/Logger.ts:51 | substituted text is not scanned again, even when it looks like a placeholder |
| Logger.RenderSlot | src/Logger.ts:51-55 | plain text then a placeholder renders as the text then the value |
| Logger.RenderOneSlot | src/Logger.ts:51-55 | plain text then a final placeholder renders as the text then the value |
| Logger.RenderTwoSlots | src/Logger.ts:51-55 | a template of two placeholders between plain texts renders slot by slot |
| Logger.RenderThreeSlots | src/Logger.ts:51-55 | a template of three placeholders between plain texts renders slot by slot |
| Logger.RenderFourSlots | src/Logger.ts:51-55 | a template of four placeholders between plain texts renders slot by slot |
| Logger.RenderFiveSlots | src/Logger.ts:51-55 | a template of five placeholders between plain texts renders slot by slot |
| Logger.DefaultTemplateRenders | src/Logger.ts:18 | the default template renders as `[levelName] timestampLocalIso scope : rawMessage` |
| Logger.CriticalRankRendersZero | src/Logger.ts:52-54 | the rank of a Critical record renders as "0", because the test is for null, not falsity |
| Logger.ChooseTemplate | src/Logger.ts:49-50 | the record's template wins when present, the logger's otherwise |
| Logger.Formatted | src/Logger.ts:47-56 | there is a text exactly when either template is present, and it is the chosen template rendered |
| Logger.BaseLogger.constructor | src/Logger.ts:17-20 | the level is Debug and the template is the default one |
| Logger.BaseLogger.SetLevel | src/Logger.ts:26-28 | the level becomes the given one; the template is kept |
| Logger.BaseLogger.GetLevel | src/Logger.ts:30-32 | returns the current level, so it gives back what SetLevel set |
| Logger.BaseLogger.SetFormatter | src/Logger.ts:38-40 | the template becomes the given one; the level is kept |
| Logger.BaseLogger.FormatLog | src/Logger.ts:47-56 | fills the record's cache, then returns Formatted of the record's and the logger's templates over the cached map |
| ConsoleTransport.ChannelOf | src/console/console-logger.ts:15-36 | Critical and Error, and only they, go to the error channel; Warn, Info, Trace and Debug each go to their own channel and no other level does |
| ConsoleTransport.ChannelsOfDistinctLevels | src/console/console-logger.ts:15-36 | two levels share a channel only when they are equal or both error levels |
| ConsoleTransport.ConsoleTemplateRenders | src/console/console-logger.ts:10 | the console template is the default one with `filePathWithLine` after the time |
| ConsoleTransport.ConsoleLogger.constructor | src/console/console-logger.ts:6-11 | the level is Debug, the template is the console one, and nothing has been written |
| ConsoleTransport.ConsoleLogger.Log | src/console/console-logger.ts:13-38 | exactly one line is appended: the record rendered as FormatLog renders it, on the channel of its level |
| HttpTransport.SettingsOf | src/http/http-logger.ts:37-56 | each given option is used as given; the defaults are URL "api/url", no batching, 3 retries from 1000 ms, Critical priority, no credentials and no formatted log; there are no custom headers |
| HttpTransport.BuildLogObject | src/http/http-logger.ts:58-66 | the log object carries the level's table entry, the ISO time, the payload, the scope and the metadata |
| HttpTransport.RequestHeaders | src/http/http-logger.ts:149-158 | the JSON content type comes first, then the custom headers in order |
| HttpTransport.Emit | src/http/http-logger.ts:129-137 | the request carries the batch to the server URL with the configured retries and delay |
| HttpTransport.SendBatch | src/http/http-logger.ts:122-138 | one request is appended; with no batch given it carries the bucket and empties it; with a batch given the bucket is untouched |
| HttpTransport.Bypasses | src/http/http-logger.ts:97 | definition: the priority test, the entry's rank at most the priority level's |
| HttpTransport.Place | src/http/http-logger.ts:96-102 | definition: a priority entry is sent alone, another joins the bucket |
| HttpTransport.Submit | src/http/http-logger.ts:89-119 | definition: what `log` does with an entry: send it at once without batching, otherwise place it, flush a full bucket, arm the timer |
| HttpTransport.Fire | src/http/http-logger.ts:113-119 | definition: the timer callback clears itself and flushes a non-empty bucket |
| HttpTransport.Pending | src/http/http-logger.ts:97-107 | definition: the entries sent so far followed by those still in the bucket |
| HttpTransport.SentAppend | src/http/http-logger.ts:122-138 | a new request adds exactly its batch to the entries sent |
| HttpTransport.UnbatchedSendsAtOnce | src/http/http-logger.ts:90-94 | without batch options, each entry is sent alone at once; bucket and timer are untouched |
| HttpTransport.PriorityBypassesBucket | src/http/http-logger.ts:97-99 | an entry at least as severe as the priority level is sent alone first, and not queued |
| HttpTransport.LowPriorityIsQueued | src/http/http-logger.ts:100-107 | another entry joins the end of the bucket; if that fills the bucket, the whole bucket goes as one request, in order |
| HttpTransport.BucketStaysBelowBatchSize | src/http/http-logger.ts:105-107 | with a positive batch size, the bucket stays below it after every call |
| HttpTransport.NonPositiveBatchSizeSendsEmptyBatches | src/http/http-logger.ts:97-107 | with a batch size of zero or less, a priority entry is followed by a flush of the bucket, even an empty one |
| HttpTransport.SendBatchConserves | src/http/http-logger.ts:122-127 | a given batch adds its entries to those sent; a flush moves the bucket into the sent entries without loss or repetition |
| HttpTransport.PlaceConserves | src/http/http-logger.ts:97-102 | sending or queuing adds the entry exactly once to the sent-or-queued entries |
| HttpTransport.SubmitConservesEntries | src/http/http-logger.ts:80-120 | each `log` adds its entry exactly once: nothing is lost and nothing is sent twice |
| HttpTransport.FireFlushesBucket | src/http/http-logger.ts:113-119 | firing disarms the timer and sends the bucket as one request exactly when it is non-empty |
| HttpTransport.BatchedCallArmsTimer | src/http/http-logger.ts:109-119 | a batched call always leaves the one timer pending |
| HttpTransport.Attempts | src/http/http-logger.ts:160-185 | definition: the course of a request against the server's successive responses |
| HttpTransport.AttemptsCount | src/http/http-logger.ts:167-184 | at most maxRetries + 1 POSTs, at most one per response, with one wait before every resend |
| HttpTransport.AttemptsWaits | src/http/http-logger.ts:171-181 | the k-th wait is the initial delay times 2^k |
| HttpTransport.AttemptsRetried | src/http/http-logger.ts:148-181 | every response followed by a wait was a non-ok status in the retry codes |
| HttpTransport.AttemptsShape | src/http/http-logger.ts:167-184 | at most maxRetries + 1 POSTs; the k-th wait is the delay times 2^k; every response before the last was a retried code |
| HttpTransport.AttemptsOutcome | src/http/http-logger.ts:148-184 | a request ends on the last response read: an ok status, a failed fetch, or an error raised only when the code is not retried or no retries are left |
| HttpTransport.SendRequest | src/http/http-logger.ts:139-186 | the resend loop gives exactly the waits, POST count and outcome that Attempts defines |
| HttpTransport.RetriedTwiceThenDelivered | src/http/http-logger.ts:171-181 | two 503s then a 200, with two retries from 1 s: waits of 1 s and 2 s, three POSTs, delivered |
| HttpTransport.DefaultRetriesGiveUpAfterFourPosts | src/http/http-logger.ts:171-184 | with the default options, repeated 500s give four POSTs after waits of 1, 2 and 4 s, then an error |
| HttpTransport.NoRetryOutsideRetryCodes | src/http/http-logger.ts:148-184 | 403 raises at once, and a failed fetch is not retried |
| HttpTransport.Entry | src/http/http-logger.ts:81-87 | the entry carries the log object; there is a formatted text exactly when it is asked for and a template exists |
| HttpTransport.HttpLogger.constructor | src/http/http-logger.ts:37-56 | the settings are SettingsOf the configuration; the bucket and outbox are empty and no timer is pending |
| HttpTransport.HttpLogger.SetPriorityLog | src/http/http-logger.ts:68-70 | only the priority level changes |
| HttpTransport.HttpLogger.SetHeaders | src/http/http-logger.ts:76-78 | only the custom headers change |
| HttpTransport.HttpLogger.SendBatchRequest | src/http/http-logger.ts:122-138 | the transport state becomes SendBatch of the old state |
| HttpTransport.HttpLogger.BuildEntry | src/http/http-logger.ts:81-87 | the entry is Entry of the record: its log object, and its rendered text exactly when a formatted log is asked for |
| HttpTransport.HttpLogger.Log | src/http/http-logger.ts:80-120 | the transport state becomes Submit of the old state and the record's entry; the record's cache is filled only when a formatted log is asked for |
| HttpTransport.HttpLogger.TimerFires | src/http/http-logger.ts:113-119 | the transport state becomes Fire of the old state |
| Dispatcher.AdmitsBySeverity | src/p-logger/p-logger.ts:79-90 | a threshold admits exactly the levels at least as severe; Critical always passes; Debug admits all |
| Dispatcher.Admits | src/p-logger/p-logger.ts:79-90 | definition: `verify_log_level` |
| Dispatcher.AdmitsIsMonotone | src/p-logger/p-logger.ts:79-90 | a more severe level, or a laxer threshold, is admitted too |
| Dispatcher.ErrorsAlwaysCapture | src/p-logger/p-logger.ts:164-169 | Critical and Error always capture the caller's frame; with positions hidden only they do; with depth at most 0 no other level does |
| Dispatcher.CapturesStack | src/p-logger/p-logger.ts:164-167 | definition: the capture rule |
| Dispatcher.IndexOf | src/p-logger/p-logger.ts:56-64 | `indexOf` gives the first position of the handler, or -1 exactly when it is absent |
| Dispatcher.WithHandler | src/p-logger/p-logger.ts:55-60 | definition: `addHandler` on the list |
| Dispatcher.WithoutHandler | src/p-logger/p-logger.ts:62-67 | definition: `removeHandler` on the list |
| Dispatcher.AddHandlerSpec | src/p-logger/p-logger.ts:55-60 | a new handler is appended at the end; a present handler leaves the list unchanged; the set grows by the handler alone; no duplicates appear; adding twice equals adding once |
| Dispatcher.RemoveAtKeepsDistinct | src/p-logger/p-logger.ts:64-66 | splicing one position out of a list without duplicates leaves every other element exactly once |
| Dispatcher.RemoveHandlerSpec | src/p-logger/p-logger.ts:62-67 | removing an absent handler changes nothing; otherwise the first registration is spliced out and the handlers before and after it stay in their order; exactly one registration goes; without duplicates the handler is gone |
| Dispatcher.AddThenRemove | src/p-logger/p-logger.ts:55-67 | adding a new handler and removing it restores the list |
| Dispatcher.Overlay | src/p-logger/p-logger.ts:127-130 | an object spread: every key of either object, the later one winning |
| Dispatcher.OverlayLaws | src/p-logger/p-logger.ts:128 | overlaying nothing changes nothing; overlaying the same object twice equals overlaying it once |
| Dispatcher.EffectiveParams | src/p-logger/p-logger.ts:146-152 | the call's parameters over the logger's when given, the logger's otherwise |
| Dispatcher.EnumLookup | src/p-logger/p-logger.ts:137-144 | a string message finds the standard message stored under it, and none when absent; an Error finds none |
| Dispatcher.EnumMessageApplies | src/p-logger/p-logger.ts:137-162 | a string naming a standard message gets its fields over the message, and the effective parameters nested |
| Dispatcher.PreparedMetaData | src/p-logger/p-logger.ts:164-169 | the record carries the caller's frame exactly when the capture rule holds, whatever the thresholds |
| Dispatcher.Prepared | src/p-logger/p-logger.ts:137-169 | definition: the record `_log` prepares before handing it on |
| Dispatcher.Admitting | src/p-logger/p-logger.ts:175-180 | definition: the handlers whose own threshold admits the level, in list order |
| Dispatcher.AdmittingMembers | src/p-logger/p-logger.ts:175-180 | a handler receives the record exactly when it is registered and its own threshold admits the level |
| Dispatcher.AdmittingOnce | src/p-logger/p-logger.ts:175-180 | each of the distinct registered handlers receives the record at most once |
| Dispatcher.PLogger.constructor | src/p-logger/p-logger.ts:31-49 | name "Root", no threshold, no template, empty parameters, positions hidden and depth 0 by default; no handlers, so the list is duplicate-free |
| Dispatcher.PLogger.AddHandler | src/p-logger/p-logger.ts:55-60 | the handler list becomes WithHandler of the old one, and every other field is unchanged; a duplicate-free list stays duplicate-free |
| Dispatcher.PLogger.RemoveHandler | src/p-logger/p-logger.ts:62-67 | the handler list becomes WithoutHandler of the old one, and every other field is unchanged; a duplicate-free list stays duplicate-free |
| Dispatcher.PLogger.SetTimestampGenerator | src/p-logger/p-logger.ts:74-76 | the generator is stored, and every other field is unchanged |
| Dispatcher.PLogger.SetLogEnums | src/p-logger/p-logger.ts:103-105 | the enum keys are replaced, and every other field is unchanged |
| Dispatcher.PLogger.SetEnumMessages | src/p-logger/p-logger.ts:111-113 | the standard messages are replaced, and every other field is unchanged |
| Dispatcher.PLogger.UpdateParams | src/p-logger/p-logger.ts:119-121 | the static parameters are replaced wholesale, and every other field is unchanged |
| Dispatcher.PLogger.AppendParams | src/p-logger/p-logger.ts:127-130 | the static parameters become the old ones overlaid by the new, and every other field is unchanged |
| Dispatcher.PLogger.Dispatch | src/p-logger/p-logger.ts:175-180 | the `forEach` loop delivers to exactly the admitting handlers, in list order |
| Dispatcher.PLogger.PrepareRecord | src/p-logger/p-logger.ts:137-169 | the record built from the logger's state is the one Prepared describes, with a fresh cache |
| Dispatcher.PLogger.Log | src/p-logger/p-logger.ts:135-181 | the record is Prepared from the logger's state; no handler receives it when the logger's threshold rejects the level, otherwise exactly the admitting handlers do, in order, each once when the list is duplicate-free |

## Left out

- `jsonStringifyRecursive` (src/helperMethods.ts) is an abstract function in `Renderers`. The model does not describe JSON serialisation, so `message` and `rawMessage` are whatever it gives, and nothing is said about cycles.
- `fetch`, `Headers` and the request body: a send is an appended `Request` value. The server's replies are a supplied sequence of responses.
- A rejected `response.json()` is not modelled.
- `setTimeout` and `clearTimeout` are a boolean plus an explicit `TimerFires` step. `debounceTime` and the back-off delays are recorded but never waited for.
- `HttpTransport.HttpLogger.Log` does not start the retry pipeline of each request. `SendRequest` models that pipeline separately, over the request's `maxRetries` and `retryDelay`.
- `Date`: timestamps are integers. `toISOString`, `getTimezoneOffset` and `String(date)` are abstract functions.
- The regular-expression engine: the two path patterns of src/logs/errorObj.ts:62-63 are an abstract `Matcher`. Each match must supply the mandatory `fileName` group.
- `globalThis.location` and `navigator.userAgent` are fields of `Site`.
- `instanceof Error` is decided by the message's tag (`Plain` or `Err`).
- `isError` and `stringifyErrorObject` (src/logs/errorObj.ts:23-36): the first is the message's tag; the second is called by no core code.
- `checkHandlers` (console `trace` debugging) is not modelled, and neither is the printing done by the `console` methods. The console logger records the channel and the text of each line instead.
- The `default` branch of the console `switch` cannot be reached for the six levels. The Dafny `match` is exhaustive and has no such case.
- `Dispatcher.PLogger.Log` does not call each handler's `log`; it returns the ordered list of handlers that receive the record. `pLogger.log` itself does nothing (src/p-logger/p-logger.ts:132-134).
- `critical`, `error`, `info`, `debug`, `warn` and `trace` (src/p-logger/p-logger.ts:183-206) are each `_log` with a fixed level, which is `Dispatcher.PLogger.Log` called with that level.
- `Values.PropertyKey`: arrays, objects and errors used as a dictionary key are turned into text by JavaScript. The model gives no key for them.
- `Dispatcher.EnumLookup`: for the same reason, an array, object or Error message never finds a standard message, whereas JavaScript would look up its text form.
- Numbers are integers. Floating-point keys and values are not modelled.
- Inherited prototype properties are not modelled. A placeholder name or standard-message key such as `constructor` counts as absent, whereas in JavaScript it would find the inherited member.
- A `null` `staticParams` in the configuration or in `updateParams` is not modelled. Parameters are always an object.
- `BaseLogger.logEnums` and the `pLogger.timestamp` field are never read, and are not modelled.
- `ConsoleTransport.ConsoleLogger.Log` requires the console logger to have a template, which it always has: it is set by the constructor, and `setFormatter` keeps it a string. The failure when both templates are `null` is modelled only in `Logger.Formatted` and `Logger.BaseLogger.FormatLog`.
- `HttpTransport.HttpLogger.Log`: same requirement and same reason as `ConsoleTransport.ConsoleLogger.Log`.
- The `./batch-log` module is not part of this model. Its `{ logBuffer }` shape is the `logBuffer` field of `Request`.
