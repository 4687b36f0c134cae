/**
 * `MessageHandler` of `core/message_handler.py`: the four counters it keeps,
 * how `handle_message` routes a message to a pipeline task, how a finished
 * task is counted and reported, and the status report gate.
 *
 * `settings.get_pipeline_for_channel` is not defined by the settings module
 * shown, so the pipeline choice is a function passed in, whose `Err` stands
 * for the exception it raises. A spawned task is returned rather than run;
 * running it is `ProcessTask` with the pipeline's outcome. Error reports
 * are returned as `ErrorReport` values, rendered by `StatusReporter.ErrorText`.
 */
module MessageHandler {
  import opened Wrappers
  import opened PyStr
  import StatusReporter

  /** `self.metrics`. */
  datatype Metrics = Metrics(totalMessages: nat, translatorProcessed: nat, analystProcessed: nat, errors: nat)

  const Zero := Metrics(0, 0, 0, 0)

  /** A background task `handle_message` creates. */
  datatype Task = TranslatorTask(chatId: int) | AnalystTask(chatId: int)

  /** How awaiting a pipeline's `process(message)` ended. */
  datatype PipelineOutcome = Finished(success: bool) | Raised(error: string)

  /** The arguments of one `report_error` call. */
  datatype ErrorReport = ErrorReport(errorType: string, errorMessage: string, context: seq<(string, string)>)

  /**
   * `handle_message`: the new counters and the task it creates. The total
   * grows first; a message without a (truthy) chat id or from an `unknown`
   * channel creates nothing; a failing pipeline lookup counts an error.
   */
  function Handle(m: Metrics, chatId: Option<int>, pipelineFor: int -> Result<string>): (Metrics, Option<Task>) {
    var counted := m.(totalMessages := m.totalMessages + 1);
    if chatId.None? || chatId.value == 0 then (counted, None)
    else match pipelineFor(chatId.value)
      case Err(_) => (counted.(errors := counted.errors + 1), None)
      case Ok(kind) =>
        if kind == "translator" then (counted, Some(TranslatorTask(chatId.value)))
        else if kind == "analyst" then (counted, Some(AnalystTask(chatId.value)))
        else (counted, None)
  }

  /** The counters after a task finishes: its processed counter on success, `errors` otherwise. */
  function Complete(m: Metrics, task: Task, outcome: PipelineOutcome): Metrics {
    if outcome == Finished(true) then
      if task.TranslatorTask? then m.(translatorProcessed := m.translatorProcessed + 1)
      else m.(analystProcessed := m.analystProcessed + 1)
    else m.(errors := m.errors + 1)
  }

  /** The `report_error` a finished task makes, if any. */
  function TaskReport(task: Task, outcome: PipelineOutcome): Option<ErrorReport> {
    var context := [("channel_id", IntToString(task.chatId))];
    match outcome
    case Finished(true) => None
    case Finished(false) =>
      if task.TranslatorTask? then Some(ErrorReport("Translator Pipeline Failure", "Message processing failed in translator pipeline", context))
      else Some(ErrorReport("Analyst Pipeline Failure", "PDF processing failed in analyst pipeline", context))
    case Raised(e) =>
      if task.TranslatorTask? then Some(ErrorReport("Translator Pipeline Exception", e, context))
      else Some(ErrorReport("Analyst Pipeline Exception", e, context))
  }

  /** The sum of the three outcome counters. */
  function Settled(m: Metrics): nat {
    m.translatorProcessed + m.analystProcessed + m.errors
  }

  /**
   * Every call of `handle_message` adds exactly one to the total; a message
   * that creates no task leaves the other counters alone unless the lookup
   * raised; a task is created only for a translator or analyst channel.
   */
  lemma HandleCounts(m: Metrics, chatId: Option<int>, pipelineFor: int -> Result<string>)
    ensures var (n, task) := Handle(m, chatId, pipelineFor);
      && n.totalMessages == m.totalMessages + 1
      && n.translatorProcessed == m.translatorProcessed && n.analystProcessed == m.analystProcessed
      && (n.errors == m.errors + 1 <==> chatId.Some? && chatId.value != 0 && pipelineFor(chatId.value).Err?)
      && (n.errors != m.errors + 1 ==> n.errors == m.errors)
      && (task.Some? <==> chatId.Some? && chatId.value != 0 && pipelineFor(chatId.value) in {Ok("translator"), Ok("analyst")})
      && (task.Some? ==> task.value.chatId == chatId.value)
  {
  }

  /**
   * A finished task adds one to exactly one of its processed counter and
   * `errors`, and reports an error exactly when it did not succeed.
   */
  lemma CompleteCountsOnce(m: Metrics, task: Task, outcome: PipelineOutcome)
    ensures var n := Complete(m, task, outcome);
      && Settled(n) == Settled(m) + 1
      && n.totalMessages == m.totalMessages
      && (n.errors == m.errors + 1 <==> outcome != Finished(true))
      && (task.TranslatorTask? ==> n.analystProcessed == m.analystProcessed)
      && (task.AnalystTask? ==> n.translatorProcessed == m.translatorProcessed)
      && (TaskReport(task, outcome).Some? <==> outcome != Finished(true))
  {
  }

  /** What happens to the handler: a message arrives (with what the pipeline lookup for its chat gives), or a task finishes. */
  datatype Event =
    | Receive(chatId: Option<int>, lookup: Result<string>)
    | Finish(task: Task, outcome: PipelineOutcome)

  /** A message whose pipeline lookup raised. */
  predicate LookupFailed(e: Event) {
    e.Receive? && e.chatId.Some? && e.chatId.value != 0 && e.lookup.Err?
  }

  /** The counters after one event. */
  function Apply(m: Metrics, e: Event): Metrics {
    match e
    case Receive(chatId, lookup) => Handle(m, chatId, _ => lookup).0
    case Finish(task, outcome) => Complete(m, task, outcome)
  }

  /** One event adds one to the total exactly for a message, and one to the outcome counters for a finished task or a failed lookup. */
  lemma ApplyCounts(m: Metrics, e: Event)
    ensures Apply(m, e).totalMessages == m.totalMessages + (if e.Receive? then 1 else 0)
    ensures Settled(Apply(m, e)) == Settled(m) + (if e.Finish? || LookupFailed(e) then 1 else 0)
    ensures Grows(m, Apply(m, e))
  {
    match e
    case Receive(chatId, lookup) => HandleCounts(m, chatId, _ => lookup);
    case Finish(task, outcome) => CompleteCountsOnce(m, task, outcome);
  }

  /** The counters after `events`, from `m`. */
  function Replay(m: Metrics, events: seq<Event>): Metrics {
    if events == [] then m else Apply(Replay(m, events[..|events| - 1]), events[|events| - 1])
  }

  function Receives(events: seq<Event>): nat {
    if events == [] then 0 else Receives(events[..|events| - 1]) + (if events[|events| - 1].Receive? then 1 else 0)
  }

  /** The finished tasks and the failed lookups. */
  function Outcomes(events: seq<Event>): nat {
    if events == [] then 0
    else Outcomes(events[..|events| - 1]) + (if events[|events| - 1].Finish? || LookupFailed(events[|events| - 1]) then 1 else 0)
  }

  /**
   * From fresh counters, the total counts the messages received, and the
   * outcome counters together count the finished tasks plus the failed
   * lookups.
   */
  lemma {:induction false} ReplayAccounting(events: seq<Event>)
    ensures Replay(Zero, events).totalMessages == Receives(events)
    ensures Settled(Replay(Zero, events)) == Outcomes(events)
  {
    if events != [] {
      var init := events[..|events| - 1];
      ReplayAccounting(init);
      ApplyCounts(Replay(Zero, init), events[|events| - 1]);
    }
  }

  /** No counter ever goes down: the counters after a prefix of the events are at most those after all of them. */
  lemma {:induction false} ReplayMonotone(events: seq<Event>, i: nat)
    requires i <= |events|
    ensures Grows(Replay(Zero, events[..i]), Replay(Zero, events))
  {
    if i == |events| {
      assert events[..i] == events;
    } else {
      var init := events[..|events| - 1];
      assert init[..i] == events[..i];
      ReplayMonotone(init, i);
      ApplyCounts(Replay(Zero, init), events[|events| - 1]);
    }
  }

  /** No counter of `a` is above the one of `b`. */
  predicate Grows(a: Metrics, b: Metrics) {
    a.totalMessages <= b.totalMessages && a.translatorProcessed <= b.translatorProcessed
    && a.analystProcessed <= b.analystProcessed && a.errors <= b.errors
  }

  /** The status report `send_status_report` sends: its text is fixed around the four counters. */
  function StatusReportText(m: Metrics): string {
    "**\U{00F0}\U{0178}\U{201C}\U{0160} Bot Status Report**\n\n**Messages Processed:** " + NatToString(m.totalMessages)
    + "\n**Translator Pipeline:** " + NatToString(m.translatorProcessed)
    + "\n**Analyst Pipeline:** " + NatToString(m.analystProcessed)
    + "\n**Errors:** " + NatToString(m.errors) + "\n\n_Bot is running and monitoring channels_\n"
  }

  class Handler {
    var metrics: Metrics
    const outputChannelId: string
    const statusDestinationId: string
    const reporter: StatusReporter.Reporter

    constructor(outputChannelId: string, statusDestinationId: string)
      ensures metrics == Zero
      ensures this.statusDestinationId == statusDestinationId && reporter == StatusReporter.Reporter(statusDestinationId)
      ensures this.outputChannelId == outputChannelId
    {
      this.outputChannelId := outputChannelId;
      this.statusDestinationId := statusDestinationId;
      reporter := StatusReporter.Reporter(statusDestinationId);
      metrics := Zero;
    }

    /** `handle_message(message)`: returns the task it creates. */
    method HandleMessage(chatId: Option<int>, pipelineFor: int -> Result<string>) returns (task: Option<Task>)
      modifies this
      ensures (metrics, task) == Handle(old(metrics), chatId, pipelineFor)
    {
      metrics := metrics.(totalMessages := metrics.totalMessages + 1);
      task := None;
      if chatId.None? || chatId.value == 0 {
        return;
      }
      var pipelineType := pipelineFor(chatId.value);
      if pipelineType.Err? {
        metrics := metrics.(errors := metrics.errors + 1);
        return;
      }
      if pipelineType.value == "unknown" {
        return;
      }
      if pipelineType.value == "translator" {
        task := Some(TranslatorTask(chatId.value));
      } else if pipelineType.value == "analyst" {
        task := Some(AnalystTask(chatId.value));
      }
    }

    /** `_process_translator` / `_process_analyst`: counts the outcome and returns the error report it sends, if any. */
    method ProcessTask(task: Task, outcome: PipelineOutcome) returns (report: Option<ErrorReport>)
      modifies this
      ensures metrics == Complete(old(metrics), task, outcome)
      ensures report == (if reporter.Enabled() then TaskReport(task, outcome) else None)
    {
      var context := [("channel_id", IntToString(task.chatId))];
      report := None;
      match outcome {
        case Finished(success) =>
          if success {
            if task.TranslatorTask? {
              metrics := metrics.(translatorProcessed := metrics.translatorProcessed + 1);
            } else {
              metrics := metrics.(analystProcessed := metrics.analystProcessed + 1);
            }
          } else {
            metrics := metrics.(errors := metrics.errors + 1);
            if reporter.Enabled() {
              report := if task.TranslatorTask? then Some(ErrorReport("Translator Pipeline Failure", "Message processing failed in translator pipeline", context))
                else Some(ErrorReport("Analyst Pipeline Failure", "PDF processing failed in analyst pipeline", context));
            }
          }
        case Raised(e) =>
          metrics := metrics.(errors := metrics.errors + 1);
          if reporter.Enabled() {
            report := if task.TranslatorTask? then Some(ErrorReport("Translator Pipeline Exception", e, context))
              else Some(ErrorReport("Analyst Pipeline Exception", e, context));
          }
      }
    }

    /** `get_metrics()`: a copy; the counters are a value, so changing the copy cannot reach the handler. */
    method GetMetrics() returns (m: Metrics)
      ensures m == metrics
    {
      m := metrics;
    }

    /** `send_status_report()`: nothing without a status destination, else the report of the current counters. */
    method SendStatusReport() returns (sent: Option<(string, string)>)
      ensures sent.None? <==> statusDestinationId == ""
      ensures sent.Some? ==> sent.value == (statusDestinationId, StatusReportText(metrics))
    {
      if statusDestinationId == "" {
        return None;
      }
      return Some((statusDestinationId, StatusReportText(metrics)));
    }
  }
}
