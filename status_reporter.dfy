/**
 * `StatusReporter` of `services/status_reporter.py`: the enabled gate, the
 * texts of the startup, periodic and error reports, the uptime string, and
 * the periodic loop.
 *
 * The emoji and bullets of `services/status_reporter.py` are stored in the
 * file as mis-decoded UTF-8 (the bullet is the three characters U+00E2
 * U+20AC U+00A2); the texts below use the characters the file holds.
 * Clock readings (`strftime` results, the time since start) are inputs.
 */
module StatusReporter {
  import opened Wrappers
  import opened PyStr

  /** The bullet of the reports, as the file holds it. */
  const Bullet := "\U{00E2}\U{20AC}\U{00A2}"
  const StartedIcon := "\U{011F}\U{0178}\U{0178}\U{00A2}"
  const PeriodicIcon := "\U{011F}\U{0178}\U{201C}\U{0160}"
  const ErrorIcon := "\U{00E2}\U{0161}\U{00A0}\U{00EF}\U{00B8}"

  /** A reporter: where reports go; it is enabled exactly when that is non-empty. */
  datatype Reporter = Reporter(destination: string) {
    predicate Enabled() {
      destination != ""
    }
  }

  /** `metrics.get(key, 0)`. */
  function Metric(metrics: map<string, int>, key: string): int {
    if key in metrics then metrics[key] else 0
  }

  function StartupText(startupTime: string, monitoredChannels: int): string {
    StartedIcon + " **Bot Started**\n\n**Time:** " + startupTime + "\n**Status:** Operational\n**Monitoring:** "
    + IntToString(monitoredChannels) + " channels\n\nThe intelligence aggregator is now running and processing messages.\n"
  }

  function PeriodicText(currentTime: string, uptime: string, metrics: map<string, int>): string {
    PeriodicIcon + " **Periodic Status Update**\n\n**Time:** " + currentTime + "\n**Uptime:** " + uptime
    + "\n**Status:** Operational\n\n**Metrics:**\n"
    + Bullet + " Total Messages: " + IntToString(Metric(metrics, "total_messages")) + "\n"
    + Bullet + " Translator Processed: " + IntToString(Metric(metrics, "translator_processed")) + "\n"
    + Bullet + " Analyst Processed: " + IntToString(Metric(metrics, "analyst_processed")) + "\n"
    + Bullet + " Errors: " + IntToString(Metric(metrics, "errors")) + "\n\nAll systems operational.\n"
  }

  const ContextHeading := "\n**Context:**\n"

  /** The `• k: v` lines of a context, in its order. */
  function ContextLines(context: seq<(string, string)>): seq<string> {
    seq(|context|, i requires 0 <= i < |context| => Bullet + " " + context[i].0 + ": " + context[i].1)
  }

  /** The context block of an error report: empty for a missing or empty context. */
  function ContextBlock(context: Option<seq<(string, string)>>): (r: string)
    ensures r == "" <==> context.None? || context.value == []
  {
    if context.None? || context.value == [] then ""
    else ContextHeading + Join(ContextLines(context.value), "\n")
  }

  /**
   * When no key or value holds a line break, the block is the heading
   * followed by exactly one line per entry, in order.
   */
  lemma ContextBlockLines(context: seq<(string, string)>)
    requires context != []
    requires forall i, j :: 0 <= i < |context| && 0 <= j < |context[i].0| ==> context[i].0[j] != '\n'
    requires forall i, j :: 0 <= i < |context| && 0 <= j < |context[i].1| ==> context[i].1[j] != '\n'
    ensures var r := ContextBlock(Some(context));
      && StartsWith(r, ContextHeading)
      && Split(r[|ContextHeading|..], "\n") == ContextLines(context)
  {
    var lines := ContextLines(context);
    forall i, j | 0 <= i < |lines| && 0 <= j < |lines[i]| ensures lines[i][j] != '\n' {
      var k, v := context[i].0, context[i].1;
      assert lines[i] == Bullet + " " + k + ": " + v;
      if j >= |Bullet| + 1 + |k| + 2 {
        assert lines[i][j] == v[j - |Bullet| - 1 - |k| - 2];
      } else if j >= |Bullet| + 1 && j < |Bullet| + 1 + |k| {
        assert lines[i][j] == k[j - |Bullet| - 1];
      }
    }
    var r := ContextBlock(Some(context));
    assert r[|ContextHeading|..] == Join(lines, "\n");
    SplitJoinChar(lines, '\n');
  }

  function ErrorText(currentTime: string, errorType: string, errorMessage: string, context: Option<seq<(string, string)>>): string {
    ErrorIcon + " **Error Alert**\n\n**Time:** " + currentTime + "\n**Type:** " + errorType + "\n**Error:** " + errorMessage
    + "\n" + ContextBlock(context) + "\n\nThe bot continues running, but this error may require attention.\n"
  }

  /**
   * `report_startup`: the text it tries to send, `None` when disabled. A
   * failed send is logged and not raised, so no outcome of the send reaches
   * the caller.
   */
  function ReportStartup(r: Reporter, startupTime: string, monitoredChannels: int): (sent: Option<string>)
    ensures sent.None? <==> !r.Enabled()
    ensures sent.Some? ==> sent.value == StartupText(startupTime, monitoredChannels)
  {
    if !r.Enabled() then None else Some(StartupText(startupTime, monitoredChannels))
  }

  /** `report_periodic_status`: the text it tries to send, `None` when disabled. */
  function ReportPeriodicStatus(r: Reporter, currentTime: string, sinceStart: int, metrics: map<string, int>): (sent: Option<string>)
    ensures sent.None? <==> !r.Enabled()
    ensures sent.Some? ==> sent.value == PeriodicText(currentTime, Uptime(sinceStart), metrics)
  {
    if !r.Enabled() then None else Some(PeriodicText(currentTime, Uptime(sinceStart), metrics))
  }

  /** `report_error`: the text it tries to send, `None` when disabled. */
  function ReportError(r: Reporter, currentTime: string, errorType: string, errorMessage: string, context: Option<seq<(string, string)>>): (sent: Option<string>)
    ensures sent.None? <==> !r.Enabled()
    ensures sent.Some? ==> sent.value == ErrorText(currentTime, errorType, errorMessage, context)
  {
    if !r.Enabled() then None else Some(ErrorText(currentTime, errorType, errorMessage, context))
  }

  /** The fields of a `timedelta` of `sinceStart` whole seconds, and the hours and minutes of its `seconds`. */
  function Days(sinceStart: int): int { sinceStart / 86400 }
  function Hours(sinceStart: int): int { (sinceStart % 86400) / 3600 }
  function Minutes(sinceStart: int): int { (sinceStart % 86400) % 3600 / 60 }

  /** The pieces `_calculate_uptime` joins: days and hours only when positive, minutes always. */
  function UptimeParts(sinceStart: int): seq<string> {
    var d, h, m := Days(sinceStart), Hours(sinceStart), Minutes(sinceStart);
    (if d > 0 then [IntToString(d) + "d"] else []) + (if h > 0 then [IntToString(h) + "h"] else []) + [IntToString(m) + "m"]
  }

  /** `_calculate_uptime()` for `sinceStart` seconds since the reporter was created. */
  function Uptime(sinceStart: int): string {
    Join(UptimeParts(sinceStart), " ")
  }

  /**
   * Hours lie in 0..23 and minutes in 0..59, and together with the days they
   * give back the elapsed time to the minute.
   */
  lemma UptimeFields(sinceStart: int)
    ensures 0 <= Hours(sinceStart) < 24 && 0 <= Minutes(sinceStart) < 60
    ensures var t := Days(sinceStart) * 86400 + Hours(sinceStart) * 3600 + Minutes(sinceStart) * 60;
      t <= sinceStart < t + 60
  {
  }

  /**
   * The uptime string is its pieces separated by single spaces; it ends with
   * the minutes, starts with the days exactly when there is at least one
   * day, and names the hours exactly when there is at least one hour.
   */
  lemma UptimeShape(sinceStart: int)
    ensures Split(Uptime(sinceStart), " ") == UptimeParts(sinceStart)
    ensures var parts := UptimeParts(sinceStart);
      && parts[|parts| - 1] == IntToString(Minutes(sinceStart)) + "m"
      && (Days(sinceStart) > 0 <==> parts[0] == IntToString(Days(sinceStart)) + "d")
      && (Hours(sinceStart) > 0 <==> IntToString(Hours(sinceStart)) + "h" in parts)
  {
    var parts := UptimeParts(sinceStart);
    var d, h, m := Days(sinceStart), Hours(sinceStart), Minutes(sinceStart);
    assert h >= 0 && m >= 0;
    forall i, j | 0 <= i < |parts| && 0 <= j < |parts[i]| ensures parts[i][j] != ' ' {
      assert IsDigit(parts[i][j]) || parts[i][j] in "dhm";
    }
    SplitJoinChar(parts, ' ');
    if d <= 0 {
      assert parts[0][|parts[0]| - 1] != 'd';
    }
  }

  /** One round of the periodic task: cancelled (during the sleep), failed, or reported with these readings. */
  datatype Tick = Cancelled | Failed(error: string) | Reported(currentTime: string, sinceStart: int, metrics: map<string, int>)

  /** What the periodic task does: sleep, or send the periodic report with these readings (its text is `PeriodicText`). */
  datatype PeriodicAction = Sleep(seconds: int) | SendPeriodic(currentTime: string, sinceStart: int, metrics: map<string, int>)

  /** What one round does: sleep, then send the periodic report when the round got that far. */
  function Round(r: Reporter, intervalSeconds: int, t: Tick): seq<PeriodicAction> {
    match t
    case Reported(now, since, metrics) =>
      [Sleep(intervalSeconds)] + (if r.Enabled() then [SendPeriodic(now, since, metrics)] else [])
    case _ => [Sleep(intervalSeconds)]
  }

  /** The periodic task from the `k`-th round on: it sleeps first, stops when cancelled, and goes on after any other error. */
  function PeriodicFrom(r: Reporter, intervalSeconds: int, ticks: seq<Tick>, k: nat): seq<PeriodicAction>
    requires k <= |ticks|
    decreases |ticks| - k
  {
    if k == |ticks| then []
    else Round(r, intervalSeconds, ticks[k]) + (if ticks[k] == Cancelled then [] else PeriodicFrom(r, intervalSeconds, ticks, k + 1))
  }

  /**
   * `start_periodic_updates(metrics_callback, interval_hours)` and the task
   * it starts: nothing at all when disabled; otherwise the actions of the
   * rounds `ticks`.
   */
  method StartPeriodicUpdates(r: Reporter, intervalHours: int, ticks: seq<Tick>) returns (actions: seq<PeriodicAction>)
    ensures !r.Enabled() ==> actions == []
    ensures r.Enabled() ==> actions == PeriodicFrom(r, intervalHours * 3600, ticks, 0)
  {
    if !r.Enabled() {
      return [];
    }
    var intervalSeconds := intervalHours * 3600;
    actions := [];
    var k := 0;
    assert actions + PeriodicFrom(r, intervalSeconds, ticks, 0) == PeriodicFrom(r, intervalSeconds, ticks, 0);
    while k < |ticks|
      invariant 0 <= k <= |ticks|
      invariant PeriodicFrom(r, intervalSeconds, ticks, 0) == actions + PeriodicFrom(r, intervalSeconds, ticks, k)
    {
      ghost var before := actions;
      var tick := ticks[k];
      actions := actions + [Sleep(intervalSeconds)];
      if tick.Cancelled? {
        PeriodicLast(r, intervalSeconds, ticks, k, before, actions);
        return;
      }
      if tick.Reported? && r.Enabled() {
        actions := actions + [SendPeriodic(tick.currentTime, tick.sinceStart, tick.metrics)];
      }
      PeriodicStep(r, intervalSeconds, ticks, k, before, actions);
      k := k + 1;
    }
  }

  /** A round as the loop performs it: the sleep, then the report when the round got that far. */
  function RoundActions(r: Reporter, intervalSeconds: int, t: Tick, before: seq<PeriodicAction>): seq<PeriodicAction> {
    if t.Reported? && r.Enabled() then before + [Sleep(intervalSeconds)] + [SendPeriodic(t.currentTime, t.sinceStart, t.metrics)]
    else before + [Sleep(intervalSeconds)]
  }

  lemma RoundActionsIsRound(r: Reporter, intervalSeconds: int, t: Tick, before: seq<PeriodicAction>)
    ensures RoundActions(r, intervalSeconds, t, before) == before + Round(r, intervalSeconds, t)
  {
    if t.Reported? && r.Enabled() {
      assert Round(r, intervalSeconds, t) == [Sleep(intervalSeconds)] + [SendPeriodic(t.currentTime, t.sinceStart, t.metrics)];
    }
  }

  /** A cancelled round is the last one. */
  lemma PeriodicLast(r: Reporter, intervalSeconds: int, ticks: seq<Tick>, k: nat, before: seq<PeriodicAction>, after: seq<PeriodicAction>)
    requires k < |ticks| && ticks[k] == Cancelled
    requires PeriodicFrom(r, intervalSeconds, ticks, 0) == before + PeriodicFrom(r, intervalSeconds, ticks, k)
    requires after == before + [Sleep(intervalSeconds)]
    ensures PeriodicFrom(r, intervalSeconds, ticks, 0) == after
  {
    assert PeriodicFrom(r, intervalSeconds, ticks, k) == [Sleep(intervalSeconds)];
  }

  /** After a round that was not cancelled, the rest of the task is the next rounds. */
  lemma PeriodicStep(r: Reporter, intervalSeconds: int, ticks: seq<Tick>, k: nat, before: seq<PeriodicAction>, after: seq<PeriodicAction>)
    requires k < |ticks| && ticks[k] != Cancelled
    requires PeriodicFrom(r, intervalSeconds, ticks, 0) == before + PeriodicFrom(r, intervalSeconds, ticks, k)
    requires after == RoundActions(r, intervalSeconds, ticks[k], before)
    ensures PeriodicFrom(r, intervalSeconds, ticks, 0) == after + PeriodicFrom(r, intervalSeconds, ticks, k + 1)
  {
    RoundActionsIsRound(r, intervalSeconds, ticks[k], before);
    var round, rest := Round(r, intervalSeconds, ticks[k]), PeriodicFrom(r, intervalSeconds, ticks, k + 1);
    assert PeriodicFrom(r, intervalSeconds, ticks, k) == round + rest;
    AppendRegroup(before, round, rest, PeriodicFrom(r, intervalSeconds, ticks, 0), PeriodicFrom(r, intervalSeconds, ticks, k), after);
  }

  /** The task sleeps before anything else, and sleeps once per round up to the first cancellation. */
  lemma {:induction false} PeriodicSleepsFirst(r: Reporter, intervalSeconds: int, ticks: seq<Tick>, k: nat)
    requires k < |ticks|
    ensures var a := PeriodicFrom(r, intervalSeconds, ticks, k); |a| > 0 && a[0] == Sleep(intervalSeconds)
  {
  }

  /** The task stops at the first cancellation: the rounds after it never happen. */
  lemma {:induction false} PeriodicStopsAtCancel(r: Reporter, intervalSeconds: int, ticks: seq<Tick>, k: nat, i: nat)
    requires k <= i < |ticks| && ticks[i] == Cancelled
    ensures PeriodicFrom(r, intervalSeconds, ticks, k) == PeriodicFrom(r, intervalSeconds, ticks[..i + 1], k)
    decreases i - k
  {
    var prefix := ticks[..i + 1];
    assert prefix[k] == ticks[k];
    if k < i && ticks[k] != Cancelled {
      PeriodicStopsAtCancel(r, intervalSeconds, ticks, k + 1, i);
    }
  }

  /** A failing round costs one sleep and nothing else: the task goes on with the next round. */
  lemma PeriodicContinuesAfterFailure(r: Reporter, intervalSeconds: int, ticks: seq<Tick>, k: nat)
    requires k < |ticks| && ticks[k].Failed?
    ensures PeriodicFrom(r, intervalSeconds, ticks, k) == [Sleep(intervalSeconds)] + PeriodicFrom(r, intervalSeconds, ticks, k + 1)
  {
  }
}
