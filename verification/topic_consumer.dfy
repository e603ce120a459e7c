/** Per-record processing of a topic worker. The side effects of a record are
    returned as a trace of abstract effects: a synchronous file append and
    fire-and-forget submissions to the notifier pool and the database pool. */
module TopicConsumer {
  import opened Wrappers
  import opened JavaStrings
  import opened Records

  /** The output file as seen when one record is handled (`Files.exists` is asked per record).
      `run` opens the writer in append mode before polling, which creates a missing file,
      so `Missing` arises only when the file is removed while the worker runs. */
  datatype OutputFile =
    | Missing    // does not exist: the write is skipped
    | Writable   // exists and the append succeeds
    | Failing    // exists but writing throws IOException

  /** One record of a poll batch: its raw value, and the output file as it is met. */
  datatype Delivery = Delivery(value: string, output: OutputFile)

  /** The per-topic configuration the worker uses while processing. */
  datatype Config = Config(kind: TopicType, keywords: seq<string>)

  /** The foreign calls the handlers make: Jackson decoding, `Instant.parse` followed by
      local-time formatting (None when the timestamp does not parse), the pretty printer,
      and `System.lineSeparator()`. */
  datatype Platform = Platform(
    lineSeparator: string,
    readLog: string -> Option<LogEvent>,
    readSnapshot: string -> Option<ServerStorageSnapshot>,
    formatInstant: string -> Option<string>,
    prettyPrint: ServerStorageSnapshot -> string)

  /** The arguments of `saveAlert`. */
  datatype AlertRow = AlertRow(topic: string, timestamp: string, serverName: string, path: string, message: string)

  datatype Effect =
    | FileAppend(text: string)                          // written and flushed synchronously
    | SubmitNotify(alert: string)                       // sendMessage task on the notifier pool
    | SubmitAlertInsert(row: AlertRow)                  // saveAlert task on the database pool
    | SubmitSnapshotTask(snapshot: ServerStorageSnapshot) // snapshot-and-paths task on the database pool

  /** Why a worker stops. */
  datatype Fault =
    | MalformedPayload                 // readValue throws
    | BadTimestamp                     // Instant.parse throws
    | WriteFailed                      // the output write throws
    | UnsupportedType(kind: TopicType) // the dispatch switch's default branch
    | CannotOpenOutput                 // the FileWriter cannot be opened

  /** The result of handling one record. */
  datatype Outcome = Done(effects: seq<Effect>) | Fatal(fault: Fault)

  // ---------------------------------------------------------------------------
  // Projections of an effect trace

  function FileWrites(es: seq<Effect>): seq<string>
  {
    if es == [] then []
    else match es[0]
      case FileAppend(x) => [x] + FileWrites(es[1..])
      case _ => FileWrites(es[1..])
  }

  function Notifications(es: seq<Effect>): seq<string>
  {
    if es == [] then []
    else match es[0]
      case SubmitNotify(x) => [x] + Notifications(es[1..])
      case _ => Notifications(es[1..])
  }

  function AlertInserts(es: seq<Effect>): seq<AlertRow>
  {
    if es == [] then []
    else match es[0]
      case SubmitAlertInsert(x) => [x] + AlertInserts(es[1..])
      case _ => AlertInserts(es[1..])
  }

  function SnapshotTasks(es: seq<Effect>): seq<ServerStorageSnapshot>
  {
    if es == [] then []
    else match es[0]
      case SubmitSnapshotTask(x) => [x] + SnapshotTasks(es[1..])
      case _ => SnapshotTasks(es[1..])
  }

  /** Every effect is of exactly one kind, so the four projections account for the whole trace. */
  lemma {:induction false} ProjectionsPartition(es: seq<Effect>)
    ensures |FileWrites(es)| + |Notifications(es)| + |AlertInserts(es)| + |SnapshotTasks(es)| == |es|
    decreases |es|
  {
    if es != [] {
      ProjectionsPartition(es[1..]);
    }
  }

  lemma {:induction false} FileWritesDistribute(a: seq<Effect>, b: seq<Effect>)
    ensures FileWrites(a + b) == FileWrites(a) + FileWrites(b)
    decreases |a|
  {
    if a == [] {
      assert a + b == b;
    } else {
      assert (a + b)[1..] == a[1..] + b;
      FileWritesDistribute(a[1..], b);
    }
  }

  lemma {:induction false} NotificationsDistribute(a: seq<Effect>, b: seq<Effect>)
    ensures Notifications(a + b) == Notifications(a) + Notifications(b)
    decreases |a|
  {
    if a == [] {
      assert a + b == b;
    } else {
      assert (a + b)[1..] == a[1..] + b;
      NotificationsDistribute(a[1..], b);
    }
  }

  lemma {:induction false} AlertInsertsDistribute(a: seq<Effect>, b: seq<Effect>)
    ensures AlertInserts(a + b) == AlertInserts(a) + AlertInserts(b)
    decreases |a|
  {
    if a == [] {
      assert a + b == b;
    } else {
      assert (a + b)[1..] == a[1..] + b;
      AlertInsertsDistribute(a[1..], b);
    }
  }

  lemma {:induction false} SnapshotTasksDistribute(a: seq<Effect>, b: seq<Effect>)
    ensures SnapshotTasks(a + b) == SnapshotTasks(a) + SnapshotTasks(b)
    decreases |a|
  {
    if a == [] {
      assert a + b == b;
    } else {
      assert (a + b)[1..] == a[1..] + b;
      SnapshotTasksDistribute(a[1..], b);
    }
  }

  /** The projections of a concatenated trace are the concatenated projections. */
  lemma ProjectionsDistribute(a: seq<Effect>, b: seq<Effect>)
    ensures FileWrites(a + b) == FileWrites(a) + FileWrites(b)
    ensures Notifications(a + b) == Notifications(a) + Notifications(b)
    ensures AlertInserts(a + b) == AlertInserts(a) + AlertInserts(b)
    ensures SnapshotTasks(a + b) == SnapshotTasks(a) + SnapshotTasks(b)
  {
    FileWritesDistribute(a, b);
    NotificationsDistribute(a, b);
    AlertInsertsDistribute(a, b);
    SnapshotTasksDistribute(a, b);
  }

  // ---------------------------------------------------------------------------
  // LOG records

  /** The alert test of `handleLogRecord`: is some keyword, as configured, a substring
      of the lowercased message? */
  function AlertMatches(keywords: seq<string>, message: string): (r: bool)
    ensures r <==> exists j :: 0 <= j < |keywords| && exists i :: OccursAt(ToLower(message), keywords[j], i)
    ensures keywords == [] ==> !r
  {
    AnyKeywordIn(keywords, ToLower(message))
  }

  /** `anyMatch(k -> text.contains(k))` over the keywords, in list order. */
  function AnyKeywordIn(keywords: seq<string>, text: string): (r: bool)
    ensures r <==> exists j :: 0 <= j < |keywords| && Contains(text, keywords[j])
    decreases |keywords|
  {
    if keywords == [] then false
    else Contains(text, keywords[0]) || AnyKeywordIn(keywords[1..], text)
  }

  /** Keywords are not lowercased: one holding an ASCII capital never matches. */
  lemma UppercaseKeywordNeverMatches(message: string, k: string, p: int)
    requires 0 <= p < |k| && IsUpper(k[p])
    ensures !Contains(ToLower(message), k)
  {
    var lower := ToLower(message);
    forall i | 0 <= i && i + |k| <= |lower|
      ensures !OccursAt(lower, k, i)
    {
      assert lower[i..i + |k|][p] == lower[i + p];
      assert !IsUpper(lower[i + p]);
    }
  }

  /** The test ignores the case of the message: lowercasing it first changes nothing. */
  lemma AlertIgnoresMessageCase(keywords: seq<string>, message: string)
    ensures AlertMatches(keywords, ToLower(message)) == AlertMatches(keywords, message)
  {
    ToLowerIdempotent(message);
  }

  /** An empty keyword is a substring of every message, so it always fires. */
  lemma EmptyKeywordAlwaysMatches(keywords: seq<string>, message: string)
    requires [] in keywords
    ensures AlertMatches(keywords, message)
  {
    var j :| 0 <= j < |keywords| && keywords[j] == [];
    assert OccursAt(ToLower(message), keywords[j], 0);
  }

  /** The keyword "failure" fires on "Disk FAILURE detected"; the keyword "FAILURE" fires
      on no message at all, not even on "disk FAILURE detected". */
  lemma KeywordCaseExample()
    ensures AlertMatches(["failure"], "Disk FAILURE detected")
    ensures !AlertMatches(["FAILURE"], "disk FAILURE detected")
  {
    var lower := ToLower("Disk FAILURE detected");
    assert lower[5..12] == "failure";
    assert OccursAt(lower, ["failure"][0], 5);
    UppercaseKeywordNeverMatches("disk FAILURE detected", "FAILURE", 0);
  }

  /** The line appended to the output file for a LOG record. */
  function LogLine(formattedTime: string, ev: LogEvent, lineSeparator: string): string
  {
    formattedTime + " [" + ev.serverName + "] " + ev.message + lineSeparator
  }

  /** The text handed to the notifier for a matching LOG record. */
  function AlertText(formattedTime: string, ev: LogEvent): string
  {
    "ALERT\n" + " Time: " + formattedTime + "\n" + " Host: " + ev.serverName + "\n"
    + " File: " + ev.path + "\n" + " Topic: " + ev.topic + "\n" + " Message: " + ev.message
  }

  function AlertRowOf(ev: LogEvent): AlertRow
  {
    AlertRow(ev.topic, ev.timestamp, ev.serverName, ev.path, ev.message)
  }

  /** `processAlert`: formats the timestamp again, then submits the notification and the
      alert insert, which carries the raw timestamp. */
  function ProcessAlert(env: Platform, ev: LogEvent): (r: seq<Effect>)
    requires env.formatInstant(ev.timestamp).Some?
    ensures Notifications(r) == [AlertText(env.formatInstant(ev.timestamp).value, ev)]
    ensures AlertInserts(r) == [AlertRow(ev.topic, ev.timestamp, ev.serverName, ev.path, ev.message)]
    ensures FileWrites(r) == [] && SnapshotTasks(r) == []
    ensures |r| == 2 && r[0].SubmitNotify? && r[1].SubmitAlertInsert?
  {
    var t := env.formatInstant(ev.timestamp).value;
    var r := [SubmitNotify(AlertText(t, ev)), SubmitAlertInsert(AlertRowOf(ev))];
    var tail := [SubmitAlertInsert(AlertRowOf(ev))];
    assert r == [SubmitNotify(AlertText(t, ev))] + tail;
    assert tail[1..] == [];
    assert Notifications(tail) == Notifications(tail[1..]) == [];
    assert FileWrites(tail) == FileWrites(tail[1..]) == [];
    assert SnapshotTasks(tail) == SnapshotTasks(tail[1..]) == [];
    assert AlertInserts(tail) == [AlertRowOf(ev)] + AlertInserts(tail[1..]);
    assert r[1..] == tail;
    r
  }

  /** The effects a decoded LOG record with formatted time `t` must produce: the line
      when the file exists, and one notification and one alert insert exactly when
      the message matches; nothing else, the file line first. */
  ghost predicate LogTrace(env: Platform, keywords: seq<string>, ev: LogEvent, t: string, output: OutputFile, es: seq<Effect>)
  {
    var fires := AlertMatches(keywords, ev.message);
    && FileWrites(es) == (if output == Writable then [LogLine(t, ev, env.lineSeparator)] else [])
    && Notifications(es) == (if fires then [AlertText(t, ev)] else [])
    && AlertInserts(es) == (if fires then [AlertRowOf(ev)] else [])
    && SnapshotTasks(es) == []
    && (output == Writable ==> |es| > 0 && es[0].FileAppend?)
  }

  /** `handleLogRecord`. Each failure (decoding, timestamp, write) happens before any effect. */
  function HandleLog(env: Platform, keywords: seq<string>, d: Delivery): (r: Outcome)
    ensures env.readLog(d.value).None? ==> r == Fatal(MalformedPayload)
    ensures env.readLog(d.value).Some? && env.formatInstant(env.readLog(d.value).value.timestamp).None? ==>
      r == Fatal(BadTimestamp)
    ensures env.readLog(d.value).Some? && env.formatInstant(env.readLog(d.value).value.timestamp).Some? ==>
      if d.output == Failing then r == Fatal(WriteFailed)
      else r.Done? && LogTrace(env, keywords, env.readLog(d.value).value,
                               env.formatInstant(env.readLog(d.value).value.timestamp).value, d.output, r.effects)
  {
    match env.readLog(d.value)
    case None => Fatal(MalformedPayload)
    case Some(ev) =>
      match env.formatInstant(ev.timestamp)
      case None => Fatal(BadTimestamp)
      case Some(t) =>
        if d.output == Failing then Fatal(WriteFailed)
        else
          var written := if d.output == Writable then [FileAppend(LogLine(t, ev, env.lineSeparator))] else [];
          var alerts := if AlertMatches(keywords, ev.message) then ProcessAlert(env, ev) else [];
          ProjectionsDistribute(written, alerts);
          Done(written + alerts)
  }

  // ---------------------------------------------------------------------------
  // METRIC records

  /** `handleMetricRecord`: after decoding, the pretty-printed snapshot is appended when the
      file exists, then exactly one database task for the snapshot is submitted, last.
      The snapshot's timestamp is not checked here. */
  function HandleMetric(env: Platform, d: Delivery): (r: Outcome)
    ensures env.readSnapshot(d.value).None? ==> r == Fatal(MalformedPayload)
    ensures env.readSnapshot(d.value).Some? && d.output == Failing ==> r == Fatal(WriteFailed)
    ensures env.readSnapshot(d.value).Some? && d.output != Failing ==>
      var s := env.readSnapshot(d.value).value;
      && r.Done?
      && FileWrites(r.effects) == (if d.output == Writable then [env.prettyPrint(s) + env.lineSeparator] else [])
      && SnapshotTasks(r.effects) == [s]
      && Notifications(r.effects) == [] && AlertInserts(r.effects) == []
      && r.effects[|r.effects| - 1] == SubmitSnapshotTask(s)
  {
    match env.readSnapshot(d.value)
    case None => Fatal(MalformedPayload)
    case Some(s) =>
      if d.output == Failing then Fatal(WriteFailed)
      else
        var written := if d.output == Writable then [FileAppend(env.prettyPrint(s) + env.lineSeparator)] else [];
        var task := [SubmitSnapshotTask(s)];
        ProjectionsDistribute(written, task);
        Done(written + task)
  }

  // ---------------------------------------------------------------------------
  // Dispatch, the batch fold and the poll loop

  /** The switch in `run`: the configured type, never the payload, picks the handler. */
  function HandleRecord(cfg: Config, env: Platform, d: Delivery): (r: Outcome)
    ensures cfg.kind.Unsupported? <==> r == Fatal(UnsupportedType(cfg.kind))
    ensures cfg.kind == Log ==> r == HandleLog(env, cfg.keywords, d)
    ensures cfg.kind == Metric ==> r == HandleMetric(env, d)
  {
    match cfg.kind
    case Log => HandleLog(env, cfg.keywords, d)
    case Metric => HandleMetric(env, d)
    case Unsupported(_) => Fatal(UnsupportedType(cfg.kind))
  }

  /** Progress through a batch: the effects so far, how many records were handled, and
      the fault that stopped processing, if any. */
  datatype Progress = Progress(effects: seq<Effect>, handled: nat, fault: Option<Fault>)

  /** The per-record handler a consumer applies to every delivery of its topic. */
  function Handler(cfg: Config, env: Platform): Delivery -> Outcome
  {
    d => HandleRecord(cfg, env, d)
  }

  /** The effects of records that `handle` all handles successfully, in order. */
  function TraceOf(handle: Delivery -> Outcome, recs: seq<Delivery>): seq<Effect>
    requires forall i :: 0 <= i < |recs| ==> handle(recs[i]).Done?
    decreases |recs|
  {
    if recs == [] then [] else handle(recs[0]).effects + TraceOf(handle, recs[1..])
  }

  /** The for-loop over one poll batch, for any per-record handler: records in iteration
      order, stopping at the first fault. */
  function Fold(handle: Delivery -> Outcome, batch: seq<Delivery>): (r: Progress)
    ensures r.handled <= |batch|
    decreases |batch|
  {
    if batch == [] then Progress([], 0, None)
    else
      match handle(batch[0])
      case Fatal(f) => Progress([], 0, Some(f))
      case Done(es) =>
        var rest := Fold(handle, batch[1..]);
        Progress(es + rest.effects, rest.handled + 1, rest.fault)
  }

  /** The for-loop over one poll batch of the consumer's topic. */
  function ProcessBatch(cfg: Config, env: Platform, batch: seq<Delivery>): Progress
  {
    Fold(Handler(cfg, env), batch)
  }

  /** The loop handles every record up to the first one that fails; that record's fault
      stops it, and the effects are exactly those of the records handled before. */
  lemma {:induction false} FoldStopsAtFirstFault(handle: Delivery -> Outcome, batch: seq<Delivery>)
    ensures var r := Fold(handle, batch);
            && (r.fault.None? <==> r.handled == |batch|)
            && (forall i :: 0 <= i < r.handled ==> handle(batch[i]).Done?)
            && (r.fault.Some? ==> handle(batch[r.handled]) == Fatal(r.fault.value))
            && r.effects == TraceOf(handle, batch[..r.handled])
    decreases |batch|
  {
    if batch != [] {
      match handle(batch[0])
      case Fatal(f) =>
      case Done(es) =>
        var rest := Fold(handle, batch[1..]);
        FoldStopsAtFirstFault(handle, batch[1..]);
        assert batch[..rest.handled + 1][1..] == batch[1..][..rest.handled];
        forall i | 1 <= i < rest.handled + 1
          ensures handle(batch[i]).Done?
        {
          assert batch[i] == batch[1..][i - 1];
        }
    }
  }

  /** The batch loop of a consumer handles every record up to the first one that fails;
      that record's fault stops it, and the effects are exactly those of the records
      handled before. */
  lemma BatchStopsAtFirstFault(cfg: Config, env: Platform, batch: seq<Delivery>)
    ensures var r := ProcessBatch(cfg, env, batch);
            && (r.fault.None? <==> r.handled == |batch|)
            && (forall i :: 0 <= i < r.handled ==> HandleRecord(cfg, env, batch[i]).Done?)
            && (r.fault.Some? ==> HandleRecord(cfg, env, batch[r.handled]) == Fatal(r.fault.value))
            && r.effects == TraceOf(Handler(cfg, env), batch[..r.handled])
  {
    FoldStopsAtFirstFault(Handler(cfg, env), batch);
  }

  /** Running the loop over `a + b` is running it over `a`, then, only if `a` raised no
      fault, over `b`. */
  lemma {:induction false} FoldAppend(handle: Delivery -> Outcome, a: seq<Delivery>, b: seq<Delivery>)
    ensures var pa := Fold(handle, a);
            var pb := Fold(handle, b);
            Fold(handle, a + b) ==
              if pa.fault.Some? then pa
              else Progress(pa.effects + pb.effects, |a| + pb.handled, pb.fault)
    decreases |a|
  {
    if a == [] {
      assert a + b == b;
    } else {
      assert (a + b)[0] == a[0];
      assert (a + b)[1..] == a[1..] + b;
      FoldAppend(handle, a[1..], b);
      match handle(a[0])
      case Fatal(_) =>
      case Done(es) =>
        var pa' := Fold(handle, a[1..]);
        var pb := Fold(handle, b);
        if pa'.fault.None? {
          assert es + (pa'.effects + pb.effects) == (es + pa'.effects) + pb.effects;
        }
    }
  }

  /** Processing `a + b` is processing `a`, then, only if `a` raised no fault, processing `b`. */
  lemma BatchAppend(cfg: Config, env: Platform, a: seq<Delivery>, b: seq<Delivery>)
    ensures var pa := ProcessBatch(cfg, env, a);
            var pb := ProcessBatch(cfg, env, b);
            ProcessBatch(cfg, env, a + b) ==
              if pa.fault.Some? then pa
              else Progress(pa.effects + pb.effects, |a| + pb.handled, pb.fault)
  {
    FoldAppend(Handler(cfg, env), a, b);
  }

  /** A fault on record `i` (a decode failure, a bad timestamp, a failed write or an
      unsupported type) means records after `i` are never handled and add no effect. */
  lemma LaterRecordsProduceNothing(cfg: Config, env: Platform, batch: seq<Delivery>, i: nat)
    requires i < |batch| && HandleRecord(cfg, env, batch[i]).Fatal?
    ensures ProcessBatch(cfg, env, batch).fault.Some?
    ensures ProcessBatch(cfg, env, batch).handled <= i
    ensures ProcessBatch(cfg, env, batch) == ProcessBatch(cfg, env, batch[..i + 1])
  {
    var front := batch[..i + 1];
    assert front[i] == batch[i];
    assert front + batch[i + 1..] == batch;
    BatchStopsAtFirstFault(cfg, env, batch);
    BatchStopsAtFirstFault(cfg, env, front);
    BatchAppend(cfg, env, front, batch[i + 1..]);
  }

  /** The lifecycle of a worker: polling until a fault closes its consumer. */
  datatype WorkerState = Polling | Closed(cause: Fault)

  /** What a worker did: its effects, in order, and its state afterwards. */
  datatype Worker = Worker(effects: seq<Effect>, state: WorkerState)

  /** All records of successive polls, in delivery order. */
  function Flatten(polls: seq<seq<Delivery>>): seq<Delivery>
    decreases |polls|
  {
    if polls == [] then [] else polls[0] + Flatten(polls[1..])
  }

  /** The `while (true)` loop of `run`, over the batches the polls returned; an empty
      batch is no error. The first fault ends the loop and closes the consumer. */
  function PollLoop(cfg: Config, env: Platform, polls: seq<seq<Delivery>>): Worker
    decreases |polls|
  {
    if polls == [] then Worker([], Polling)
    else
      var p := ProcessBatch(cfg, env, polls[0]);
      match p.fault
      case Some(f) => Worker(p.effects, Closed(f))
      case None =>
        var rest := PollLoop(cfg, env, polls[1..]);
        Worker(p.effects + rest.effects, rest.state)
  }

  /** Batch boundaries do not matter: the poll loop behaves as one batch of all records. */
  lemma {:induction false} PollLoopIsOneBatch(cfg: Config, env: Platform, polls: seq<seq<Delivery>>)
    ensures var p := ProcessBatch(cfg, env, Flatten(polls));
            var w := PollLoop(cfg, env, polls);
            && w.effects == p.effects
            && (w.state == Polling <==> p.fault.None?)
            && (p.fault.Some? ==> w.state == Closed(p.fault.value))
    decreases |polls|
  {
    if polls != [] {
      PollLoopIsOneBatch(cfg, env, polls[1..]);
      BatchAppend(cfg, env, polls[0], Flatten(polls[1..]));
    }
  }

  /** `run`: open the output writer (a failure closes the consumer before any poll),
      then loop over the polls. */
  function Run(cfg: Config, env: Platform, writerOpen: bool, polls: seq<seq<Delivery>>): (w: Worker)
    ensures !writerOpen ==> w == Worker([], Closed(CannotOpenOutput))
    ensures writerOpen ==> w.effects == ProcessBatch(cfg, env, Flatten(polls)).effects
    ensures writerOpen ==> (w.state == Polling <==> ProcessBatch(cfg, env, Flatten(polls)).fault.None?)
    ensures writerOpen && ProcessBatch(cfg, env, Flatten(polls)).fault.Some? ==>
      w.state == Closed(ProcessBatch(cfg, env, Flatten(polls)).fault.value)
  {
    if !writerOpen then Worker([], Closed(CannotOpenOutput))
    else
      PollLoopIsOneBatch(cfg, env, polls);
      PollLoop(cfg, env, polls)
  }

  /** With an unsupported type, the first record closes the worker with no effect;
      polls that return nothing keep it polling. */
  lemma UnsupportedTypeStopsWorker(cfg: Config, env: Platform, polls: seq<seq<Delivery>>)
    requires cfg.kind.Unsupported?
    ensures Run(cfg, env, true, polls).effects == []
    ensures Run(cfg, env, true, polls).state ==
      if Flatten(polls) == [] then Polling else Closed(UnsupportedType(cfg.kind))
  {
    var batch := Flatten(polls);
    if batch != [] {
      LaterRecordsProduceNothing(cfg, env, batch, 0);
    }
  }

  // ---------------------------------------------------------------------------
  // The METRIC database task

  /** The database calls the task makes, in order. */
  datatype DbCall = SaveSnapshot(snapshot: ServerStorageSnapshot) | SavePath(snapshotId: int, usage: MountPathStorageUsage)

  /** Index of the first `savePath` that fails, or `|pathOk|` when none does. */
  function FirstFailure(pathOk: seq<bool>): (k: nat)
    ensures k <= |pathOk|
    ensures forall i :: 0 <= i < k ==> pathOk[i]
    ensures k < |pathOk| ==> !pathOk[k]
    decreases |pathOk|
  {
    if pathOk == [] || !pathOk[0] then 0 else 1 + FirstFailure(pathOk[1..])
  }

  /** The task `handleMetricRecord` submits. `saveSnapshot` parses the timestamp, inserts
      the row and returns the generated id (`generatedId`, None when the insert fails);
      then `savePath` runs once per usage, in list order, with that id (`pathOk[i]` says
      whether the i-th call succeeds). The first exception ends the task and is swallowed. */
  method RunSnapshotTask(env: Platform, snapshot: ServerStorageSnapshot, generatedId: Option<int>, pathOk: seq<bool>)
    returns (calls: seq<DbCall>, completed: bool)
    requires |pathOk| == |snapshot.usages|
    ensures |calls| >= 1 && calls[0] == SaveSnapshot(snapshot)
    ensures (env.formatInstant(snapshot.timestamp).None? || generatedId.None?) ==>
      calls == [SaveSnapshot(snapshot)] && !completed
    ensures |calls| <= 1 + |snapshot.usages|
    ensures |calls| > 1 ==>
      && generatedId.Some?
      && forall j :: 1 <= j < |calls| ==> calls[j] == SavePath(generatedId.value, snapshot.usages[j - 1])
    ensures env.formatInstant(snapshot.timestamp).Some? && generatedId.Some? ==>
      |calls| == 1 + (if FirstFailure(pathOk) < |pathOk| then FirstFailure(pathOk) + 1 else |pathOk|)
    ensures completed <==>
      env.formatInstant(snapshot.timestamp).Some? && generatedId.Some? && forall i :: 0 <= i < |pathOk| ==> pathOk[i]
  {
    calls := [SaveSnapshot(snapshot)];
    completed := false;
    if env.formatInstant(snapshot.timestamp).None? || generatedId.None? {
      return;
    }
    var id := generatedId.value;
    var i := 0;
    while i < |snapshot.usages|
      invariant 0 <= i <= |snapshot.usages|
      invariant forall j :: 0 <= j < i ==> pathOk[j]
      invariant |calls| == 1 + i
      invariant i <= FirstFailure(pathOk)
      invariant calls[0] == SaveSnapshot(snapshot)
      invariant forall j :: 1 <= j < |calls| ==> calls[j] == SavePath(id, snapshot.usages[j - 1])
    {
      calls := calls + [SavePath(id, snapshot.usages[i])];
      if !pathOk[i] {
        return;
      }
      i := i + 1;
    }
    completed := true;
  }
}
