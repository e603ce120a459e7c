# kafka-consumer-app: per-record processing and alert delivery

This project models the two pieces of logic under the I/O plumbing of the
Kafka consumer application:

- **Topic worker** (`TopicConsumer`): each record of a poll batch is dispatched
  by the topic's configured type. LOG records are decoded, their timestamp is
  formatted, a line is appended to the output file, and a keyword alert is
  raised. METRIC records are decoded, appended pretty-printed, and handed to a
  database task. That task inserts the snapshot and then one row per mount-path
  usage, each row tagged with the snapshot's generated id. Side effects are
  returned as an ordered trace of abstract effects: `FileAppend`,
  `SubmitNotify`, `SubmitAlertInsert` and `SubmitSnapshotTask`. The poll loop
  is a fold over the records that stops at the first fault, and the fault
  closes the consumer.
- **Alert notifier** (`TelegramNotifier`): the rate-limit wait, computed from
  the clock value of the last successful send, and the retry loop. The retry
  loop makes at most three attempts, retries only after a timeout, and moves
  `lastSend` only on success. The model also covers the request URL, the JSON
  body and the quote-only `escapeJson`.

Files:
- `wrappers.dfy`: an `Option` type.
- `records.dfy`: `LogEvent`, `ServerStorageSnapshot`, `MountPathStorageUsage` and `TopicType`.
- `java_strings.dfy`: `toLowerCase` and `contains`.
- `topic_consumer.dfy`: the worker.
- `telegram_notifier.dfy`: the notifier.

Foreign calls are parameters. A `Platform` value supplies Jackson decoding,
`Instant.parse` with local-time formatting, the pretty printer and the line
separator. Each record arrives with the state of the output file at the moment
it is handled: missing, writable, or present but failing on write. The
notifier's clock reading, the interruption of its rate-limit wait and the
outcome and duration of each HTTPS attempt are inputs. So are the generated
snapshot id and whether each `savePath` succeeds.

Behaviour of the code worth knowing:
- `run` opens the output file with `new FileWriter(file, true)` before it
  polls, and that call creates a missing file. Once the writer is open, a
  missing file therefore means the file was removed while the worker ran, and
  the "Consumer will NOT write" warning printed at startup does not hold.
  Failing to open the writer closes the consumer before any poll.
- A failed write to the output file throws `IOException` out of the handler and
  ends the worker (`Fault.WriteFailed`). It is not a logged, non-fatal error.
- A METRIC record's timestamp is not checked when the record is decoded. An
  unparsable timestamp makes `saveSnapshot` throw inside the database task.
  That exception is swallowed, and no usage rows are inserted.
- A failing `savePath` ends the database task. The usages after it are not
  inserted, because the `catch` wraps the whole loop.
- Each `TopicConsumer` builds its own `TelegramNotifier`. `lastSend`, and with
  it the one-second spacing, is therefore kept per topic, not process-wide. The
  spacing is measured from the last successful send, not from the last
  attempt.
- The alert test lowercases the message but not the keywords. A keyword holding
  an ASCII capital (`A`–`Z`) never fires, and an empty keyword always fires. A
  capital with no lowercase mapping (such as `ℂ`) survives lowercasing, so a
  keyword holding only such capitals can still fire.
- `escapeJson` escapes only `"`. A backslash or a control character (such as
  the newlines in every alert text) reaches the body unescaped. The escaping
  rule in section 7 of RFC 8259 would require escaping them.

## Model

| member | source | states |
|---|---|---|
| `JavaStrings.ToLower` | kafkaConsumerApp/src/main/java/org/munycha/kafkaconsumer/consumer/TopicConsumer.java:208 | lowercasing keeps the length, maps each ASCII capital (`A`–`Z`) to its small letter and keeps every other character; the result holds no ASCII capital |
| `JavaStrings.ToLowerIdempotent` | kafkaConsumerApp/src/main/java/org/munycha/kafkaconsumer/consumer/TopicConsumer.java:208 | lowercasing an already lowercased message changes nothing |
| `JavaStrings.Contains` | kafkaConsumerApp/src/main/java/org/munycha/kafkaconsumer/consumer/TopicConsumer.java:232 | the left-to-right scan answers true exactly when the keyword occurs at some index of the text; the empty keyword is always found |
| `TopicConsumer.AnyKeywordIn` | kafkaConsumerApp/src/main/java/org/munycha/kafkaconsumer/consumer/TopicConsumer.java:231-232 | `anyMatch` over the keyword list is true exactly when some listed keyword is contained in the text |
| `TopicConsumer.AlertMatches` | kafkaConsumerApp/src/main/java/org/munycha/kafkaconsumer/consumer/TopicConsumer.java:207-232 | the alert fires exactly when some keyword, not lowercased, occurs in the lowercased message; an empty keyword list never fires |
| `TopicConsumer.UppercaseKeywordNeverMatches` | kafkaConsumerApp/src/main/java/org/munycha/kafkaconsumer/consumer/TopicConsumer.java:207-208 | a keyword containing an ASCII capital (`A`–`Z`) is contained in no lowercased message |
| `TopicConsumer.AlertIgnoresMessageCase` | kafkaConsumerApp/src/main/java/org/munycha/kafkaconsumer/consumer/TopicConsumer.java:208 | the alert decision is the same for a message and for its lowercased form |
| `TopicConsumer.EmptyKeywordAlwaysMatches` | kafkaConsumerApp/src/main/java/org/munycha/kafkaconsumer/consumer/TopicConsumer.java:231-232 | if the empty string is among the keywords, every message fires an alert |
| `TopicConsumer.KeywordCaseExample` | kafkaConsumerApp/src/main/java/org/munycha/kafkaconsumer/consumer/TopicConsumer.java:207-232 | "failure" fires on "Disk FAILURE detected", while "FAILURE" does not fire even on "disk FAILURE detected" |
| `TopicConsumer.ProcessAlert` | kafkaConsumerApp/src/main/java/org/munycha/kafkaconsumer/consumer/TopicConsumer.java:239-266 | exactly two submissions, in this order. First comes one notification whose text is the ALERT header followed by five field lines, built from the formatted time, host, file, topic and message. Then comes one alert insert carrying (topic, raw timestamp, server name, path, message) |
| `TopicConsumer.HandleLog` | kafkaConsumerApp/src/main/java/org/munycha/kafkaconsumer/consumer/TopicConsumer.java:203-237 | failures come in order: a decode failure, then an unparsable timestamp, then a failing write. Each is fatal and emits nothing. Otherwise the record appends the line `time + " [" + server + "] " + message + separator` exactly when the file exists, and that line comes first. One notification and one alert insert are emitted exactly when the alert fires, and nothing else |
| `TopicConsumer.HandleMetric` | kafkaConsumerApp/src/main/java/org/munycha/kafkaconsumer/consumer/TopicConsumer.java:150-199 | a decode failure or a failing write is fatal and emits nothing. Otherwise the record appends the pretty-printed snapshot plus separator exactly when the file exists. It then submits exactly one snapshot task for the decoded snapshot, as the last effect, and submits no alert |
| `TopicConsumer.HandleRecord` | kafkaConsumerApp/src/main/java/org/munycha/kafkaconsumer/consumer/TopicConsumer.java:124-138 | the configured type alone picks the handler: LOG goes to the log handler and METRIC to the metric handler. Any other type is fatal whatever the payload, and these are the only records that fail with an unsupported-type fault |
| `TopicConsumer.BatchStopsAtFirstFault` | kafkaConsumerApp/src/main/java/org/munycha/kafkaconsumer/consumer/TopicConsumer.java:122-139 | records are handled in iteration order. Without a fault every record is handled. With a fault, the faulty record is the first one that fails, and the effects are exactly those of the records before it |
| `TopicConsumer.FoldStopsAtFirstFault` | kafkaConsumerApp/src/main/java/org/munycha/kafkaconsumer/consumer/TopicConsumer.java:122-139 | for any per-record handler, the loop stops at the first record whose handler fails, after handling every earlier record, and its effects are those of the earlier records in order |
| `TopicConsumer.FoldAppend` | kafkaConsumerApp/src/main/java/org/munycha/kafkaconsumer/consumer/TopicConsumer.java:122-139 | for any per-record handler, looping over `a + b` is looping over `a` and, only when `a` raised no fault, continuing with `b` |
| `TopicConsumer.BatchAppend` | kafkaConsumerApp/src/main/java/org/munycha/kafkaconsumer/consumer/TopicConsumer.java:122-139 | processing `a + b` processes `a`, and only when `a` raised no fault continues with `b`, concatenating their effects |
| `TopicConsumer.LaterRecordsProduceNothing` | kafkaConsumerApp/src/main/java/org/munycha/kafkaconsumer/consumer/TopicConsumer.java:122-147 | if record i fails, processing stops with a fault at or before i, and the records after i change nothing |
| `TopicConsumer.PollLoopIsOneBatch` | kafkaConsumerApp/src/main/java/org/munycha/kafkaconsumer/consumer/TopicConsumer.java:118-140 | the poll loop over successive batches gives the effects and the fault of processing all their records as one sequence; empty polls are no error |
| `TopicConsumer.Run` | kafkaConsumerApp/src/main/java/org/munycha/kafkaconsumer/consumer/TopicConsumer.java:110-148 | if the writer cannot be opened, the consumer closes with no effect. Otherwise the worker keeps polling exactly when no record failed, and otherwise it is closed with the first record's fault |
| `TopicConsumer.UnsupportedTypeStopsWorker` | kafkaConsumerApp/src/main/java/org/munycha/kafkaconsumer/consumer/TopicConsumer.java:134-147 | with an unsupported type the worker emits nothing. It closes on the first record that arrives and keeps polling while polls return none |
| `TopicConsumer.RunSnapshotTask` | kafkaConsumerApp/src/main/java/org/munycha/kafkaconsumer/consumer/TopicConsumer.java:185-198 | the snapshot insert comes first. If it fails, including on an unparsable timestamp, nothing else is called. Otherwise usage i is inserted as call i + 1, in list order, with the generated id, until the first failing insert. The task completes exactly when the snapshot and all usages are saved |
| `TelegramNotifier.NewNotifier` | kafkaConsumerApp/src/main/java/org/munycha/kafkaconsumer/telegram/TelegramNotifier.java:12-19 | a new notifier keeps its credentials, and once the clock reads at least 1000 ms its first message is sent without a rate-limit wait, because `lastSend` starts at 0 |
| `TelegramNotifier.EscapeJson` | kafkaConsumerApp/src/main/java/org/munycha/kafkaconsumer/telegram/TelegramNotifier.java:108-110 | the output is longer than the input by the number of double quotes, and every double quote in it is preceded by a backslash |
| `TelegramNotifier.EscapeRoundTrip` | kafkaConsumerApp/src/main/java/org/munycha/kafkaconsumer/telegram/TelegramNotifier.java:108-110 | collapsing each `\"` of the escaped text back to `"`, left to right, recovers the input |
| `TelegramNotifier.EscapeDistributes` | kafkaConsumerApp/src/main/java/org/munycha/kafkaconsumer/telegram/TelegramNotifier.java:108-110 | escaping works character by character: the escape of a concatenation is the concatenation of the escapes |
| `TelegramNotifier.EscapeIsIdentityIffNoQuote` | kafkaConsumerApp/src/main/java/org/munycha/kafkaconsumer/telegram/TelegramNotifier.java:108-110 | a text is left unchanged exactly when it holds no double quote, so nothing but quotes is ever escaped |
| `TelegramNotifier.EscapeKeepsBackslashAndNewline` | kafkaConsumerApp/src/main/java/org/munycha/kafkaconsumer/telegram/TelegramNotifier.java:108-110 | a text with a backslash and a newline but no quote passes through unchanged, unlike escaping per section 7 of RFC 8259 |
| `TelegramNotifier.BuildJsonBody` | kafkaConsumerApp/src/main/java/org/munycha/kafkaconsumer/telegram/TelegramNotifier.java:95-100 | the body is `{"chat_id":"`, then the chat id verbatim, then `","text":"`, then a text field that collapses back to the message, then `"}` |
| `TelegramNotifier.BuildUrl` | kafkaConsumerApp/src/main/java/org/munycha/kafkaconsumer/telegram/TelegramNotifier.java:66-68 | the URL is the API base, then the bot token verbatim, then `/sendMessage` |
| `TelegramNotifier.RateLimitWait` | kafkaConsumerApp/src/main/java/org/munycha/kafkaconsumer/telegram/TelegramNotifier.java:57-64 | the wait is zero exactly when at least 1000 ms have passed since `lastSend`. Otherwise it lasts until exactly 1000 ms after `lastSend`. Either way the first attempt starts at least 1000 ms after `lastSend` |
| `TelegramNotifier.Retry` | kafkaConsumerApp/src/main/java/org/munycha/kafkaconsumer/telegram/TelegramNotifier.java:29-53 | from attempt k on, the loop sends the same request between 1 and 4 - k times, and every attempt but the last timed out. The outcome of the last attempt decides the end: success means sent, another error means abandoned, and a timeout means dropped, which happens only at attempt 3. Only a success moves `lastSend`, and it moves it to the clock when that attempt ended: the start plus the time of every attempt made plus a 1000 ms pause after each timeout |
| `TelegramNotifier.SendMessage` | kafkaConsumerApp/src/main/java/org/munycha/kafkaconsumer/telegram/TelegramNotifier.java:21-54 | an interrupted rate-limit wait makes zero attempts. Otherwise the call makes 1 to 3 posts of the same URL and body, retrying only after timeouts. It is sent, abandoned or dropped by the last attempt's outcome. `lastSend` is unchanged unless the message was sent. Then it becomes the clock at the end of the successful attempt: `now`, plus the rate-limit wait, plus the time of each attempt, plus 1000 ms per timeout. That is at least 1000 ms past its old value |
| `TelegramNotifier.SuccessfulSendsAreSpaced` | kafkaConsumerApp/src/main/java/org/munycha/kafkaconsumer/telegram/TelegramNotifier.java:21-64 | over any sequence of calls on one notifier, every success is at least 1000 ms after the previous `lastSend`, and any two successes are at least 1000 ms apart |

## Left out

- Kafka consumer construction, subscription and `poll`: these are library I/O. A worker's input is the sequence of batches its polls returned.
- The executors, the shutdown hooks and `synchronized`: these exist for concurrency. A submission to a pool is an effect in the trace. When and in what order the pools run the submitted tasks is not modelled.
- JDBC: the database sinks are thin wrappers over `DriverManager`. `saveSnapshot` is a generated id or a failure, each `savePath` a success or a failure. `saveAlert` appears only through the arguments it is submitted with; its own timestamp parsing and swallowed errors are not modelled.
- HTTPS connection setup, request writing and response reading: each attempt is reduced to its outcome and its duration.
- Jackson decoding and pretty printing, and `Instant.parse` with formatting in the system time zone: these are foreign library calls, so they are functions supplied by `Platform`.
- `usedPercent` and the console output: the first is floating point and the second has no contract.
- Configuration loading and `AppMain`'s wiring: these are file handling with no logic. `TopicType.java` and the `model` classes are not part of this model; their fields are read off their uses.
- Null fields: a payload without, for example, `message` decodes to a null field in the code, and `toLowerCase` then throws `NullPointerException`, ending the worker like a decode failure. The model's records have no null fields.
- `JavaStrings.ToLower`: folds ASCII `A`–`Z` only. Java's `toLowerCase` folds all of Unicode under the default locale.
- `TelegramNotifier.Retry`: the backoff sleep counts as exactly 1000 ms. An interrupt that cuts it short is ignored by the code and not modelled.
- `TelegramNotifier.RateLimitWait`: the clock values are unbounded integers. Java `long` overflow, which needs clock values near 2^63, is not modelled.
- `TopicConsumer.HandleMetric`: the pretty-printed snapshot is written in two `write` calls. The model appends it as one text and treats a failing write as failing before either part is written.
- `TelegramNotifier.SuccessfulSendsAreSpaced`: relies on a clock that never steps back during a call, since attempt durations are non-negative and sleeps last exactly as long as asked. The code reads `System.currentTimeMillis()`, a wall clock that can be set back, and then the spacing can fail.
