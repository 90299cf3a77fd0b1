/**
 * The pure rules of the councilor scheduler: interval strings, the severity
 * read out of an agent's output, whether to notify and the panel summary;
 * and its state: the timers per councilor, the lock that keeps one run per
 * councilor at a time, and the count of active investigations.
 */
module CouncilorScheduler {
  import opened Wrappers
  import opened JsText
  import GamificationEvents

  const Minute: nat := 60_000
  const Hour: nat := 3_600_000
  const Day: nat := 86_400_000
  const DefaultInterval: nat := 30 * 60 * 1000

  // --------------------------------------------------------- parseInterval

  /** `value` matches `^(\d+)(m|h|d)$`. */
  predicate IsIntervalText(value: string) {
    |value| >= 2 && AllDigits(value[..|value| - 1])
    && (value[|value| - 1] == 'm' || value[|value| - 1] == 'h' || value[|value| - 1] == 'd')
  }

  function UnitMillis(unit: char): nat {
    if unit == 'm' then Minute else if unit == 'h' then Hour else Day
  }

  /** `parseInterval(value)` in milliseconds; the 30-minute default for anything else. */
  function ParseInterval(value: string): nat {
    if IsIntervalText(value) then DigitsValue(value[..|value| - 1]) * UnitMillis(value[|value| - 1])
    else DefaultInterval
  }

  /** `N` minutes, hours or days read back as `N` times the unit. */
  lemma ParseIntervalOfUnits(n: nat)
    ensures ParseInterval(NatToString(n) + "m") == n * Minute
    ensures ParseInterval(NatToString(n) + "h") == n * Hour
    ensures ParseInterval(NatToString(n) + "d") == n * Day
  {
    DigitsValueOfNatToString(n);
    var d := NatToString(n);
    assert (d + "m")[..|d|] == d && (d + "h")[..|d|] == d && (d + "d")[..|d|] == d;
  }

  /** A bare number, a bare unit, an unknown unit, a sign or a space all get the 30-minute default. */
  lemma ParseIntervalDefault(value: string)
    ensures value == "" || value == "30" || value == "m" || value == "1w" ==> ParseInterval(value) == DefaultInterval
    ensures value == "-5m" || value == " 5m" || value == "5 m" ==> ParseInterval(value) == DefaultInterval
  {
    assert !IsIntervalText("m");
    assert "30"[1] == '0';
    assert "1w"[1] == 'w';
    assert "-5m"[0] == '-' && " 5m"[0] == ' ' && "5 m"[1] == ' ';
    assert !AllDigits("-5") && !AllDigits(" 5") && !AllDigits("5 ");
  }

  // ---------------------------------------------------------- severity rules

  datatype Severity = Success | Warning | Error

  const ErrorKeywords: seq<string> := ["crítico", "erro", "falha", "critical", "error", "fail"]
  const WarningKeywords: seq<string> := ["alerta", "atenção", "warning", "aviso", "vulnerab"]

  predicate AnyIncluded(s: string, keywords: seq<string>) {
    exists k :: 0 <= k < |keywords| && Includes(s, keywords[k])
  }

  /** `analyzeSeverity(output)`: error keywords first, then warning keywords, on the lower-cased text. */
  function AnalyzeSeverity(output: string): Severity {
    var lower := ToLower(output);
    if AnyIncluded(lower, ErrorKeywords) then Error
    else if AnyIncluded(lower, WarningKeywords) then Warning
    else Success
  }

  /** An error keyword wins over any warning keyword; success means neither list matched. */
  lemma SeverityPrecedence(output: string)
    ensures AnalyzeSeverity(output) == Error <==> AnyIncluded(ToLower(output), ErrorKeywords)
    ensures AnalyzeSeverity(output) == Warning <==>
      !AnyIncluded(ToLower(output), ErrorKeywords) && AnyIncluded(ToLower(output), WarningKeywords)
    ensures AnalyzeSeverity(output) == Success <==>
      !AnyIncluded(ToLower(output), ErrorKeywords) && !AnyIncluded(ToLower(output), WarningKeywords)
  {
  }

  datatype Notifications = Notifications(onSuccess: bool, onWarning: bool, onError: bool, channels: seq<string>)

  /** `shouldNotify(notifications, severity)`. */
  predicate ShouldNotify(n: Notifications, severity: Severity) {
    match severity
    case Error => n.onError
    case Warning => n.onWarning
    case Success => n.onSuccess
  }

  /** Notification happens exactly when the flag of that severity is set. */
  lemma ShouldNotifyIffFlag(n: Notifications, severity: Severity)
    ensures ShouldNotify(n, severity) <==>
      (severity == Error && n.onError) || (severity == Warning && n.onWarning) || (severity == Success && n.onSuccess)
  {
  }

  // ----------------------------------------------------------- notification

  /** `getResultSummary(output)`: the first line, cut at 100 characters. */
  function ResultSummary(output: string): string {
    if output == "" then "Sem resultado"
    else
      var firstLine := Split(output, '\n')[0];
      if |firstLine| > 100 then Substring(firstLine, 0, 100) + "..." else firstLine
  }

  /** Empty output has a fixed summary; otherwise the summary is one line of at most 103 characters. */
  lemma ResultSummaryFacts(output: string)
    ensures output == "" ==> ResultSummary(output) == "Sem resultado"
    ensures output != "" ==> !Has(ResultSummary(output), '\n') && |ResultSummary(output)| <= 103
    ensures output != "" && !Has(output, '\n') && |output| <= 100 ==> ResultSummary(output) == output
  {
    if output != "" {
      var firstLine := Split(output, '\n')[0];
      var r := ResultSummary(output);
      if |firstLine| > 100 {
        assert r == firstLine[..100] + "...";
      }
    }
  }

  /** `getSeverityEmoji(severity)`. */
  function SeverityEmoji(severity: Severity): string {
    match severity
    case Error => "\U{1F525}"
    case Warning => "\U{26A0}\U{FE0F}"
    case Success => "\U{2705}"
  }

  /**
   * The panel event `notifyResult` pushes, when the notification channels
   * include `panel`; its random id, clock timestamp and metadata are not modelled.
   */
  function PanelEvent(n: Notifications, displayName: string, taskName: string, severity: Severity, output: string)
    : Option<GamificationEvents.GamificationEvent>
  {
    if "panel" in n.channels then
      var title := SeverityEmoji(severity) + " " + displayName + ": " + taskName + " - " + ResultSummary(output);
      var eventSeverity := match severity
        case Success => GamificationEvents.Info
        case Warning => GamificationEvents.Warning
        case Error => GamificationEvents.Error;
      var category := if severity == Error then GamificationEvents.Critical else GamificationEvents.Analysis;
      Some(GamificationEvents.GamificationEvent(title, eventSeverity, Some(category), None))
    else None
  }

  /** Only errors are filed as critical; the panel event carries the matching feed severity. */
  lemma PanelEventFacts(n: Notifications, displayName: string, taskName: string, severity: Severity, output: string)
    ensures PanelEvent(n, displayName, taskName, severity, output).Some? <==> "panel" in n.channels
    ensures var e := PanelEvent(n, displayName, taskName, severity, output);
      e.Some? ==>
        (e.value.category == Some(GamificationEvents.Critical) <==> severity == Error)
        && (e.value.severity == GamificationEvents.Info <==> severity == Success)
        && StartsWith(e.value.title, SeverityEmoji(severity) + " " + displayName + ": ")
  {
    var e := PanelEvent(n, displayName, taskName, severity, output);
    if e.Some? {
      var head := SeverityEmoji(severity) + " " + displayName + ": ";
      assert e.value.title == head + (taskName + " - " + ResultSummary(output));
    }
  }

  // ------------------------------------------------------------------ state

  datatype ScheduleType = Interval | Cron

  /** The part of `councilor_config` the scheduler reads. */
  datatype CouncilorConfig = CouncilorConfig(scheduleType: ScheduleType, scheduleValue: string, enabled: bool)

  /** The scheduler's state: timers by agent id, the execution lock and the investigation count. */
  datatype SchedulerState = SchedulerState(scheduled: map<string, nat>, locked: set<string>, activeInvestigations: int)

  /** `cancelTask(agentId)`: a recorded, non-zero timer is cleared and forgotten. */
  function AfterCancel(st: SchedulerState, agentId: string): SchedulerState {
    if agentId in st.scheduled && st.scheduled[agentId] != 0 then st.(scheduled := st.scheduled - {agentId}) else st
  }

  /** `scheduleTask(councilor)`, the browser's new interval id given as `timer`. */
  function AfterSchedule(st: SchedulerState, agentId: string, config: Option<CouncilorConfig>, timer: nat): SchedulerState {
    if config.None? then st
    else
      var cancelled := AfterCancel(st, agentId);
      if config.value.scheduleType == Interval then cancelled.(scheduled := cancelled.scheduled[agentId := timer])
      else cancelled
  }

  /** A configured interval councilor ends up with exactly the new timer; a cron councilor with none. */
  lemma ScheduleFacts(st: SchedulerState, agentId: string, config: Option<CouncilorConfig>, timer: nat, other: string)
    requires agentId !in st.scheduled || st.scheduled[agentId] != 0
    ensures var r := AfterSchedule(st, agentId, config, timer);
      (config.None? ==> r == st)
      && (config.Some? && config.value.scheduleType == Interval ==> agentId in r.scheduled && r.scheduled[agentId] == timer)
      && (config.Some? && config.value.scheduleType == Cron ==> agentId !in r.scheduled)
      && (other != agentId ==> (other in r.scheduled <==> other in st.scheduled))
      && r.locked == st.locked && r.activeInvestigations == st.activeInvestigations
  {
  }

  /** The lock step of `executeTask`: a councilor already running is skipped, else it is locked. */
  function AfterTryLock(st: SchedulerState, agentId: string): (SchedulerState, bool) {
    if agentId in st.locked then (st, false) else (st.(locked := st.locked + {agentId}), true)
  }

  /** A councilor never holds two runs: a second attempt while locked starts nothing. */
  lemma LockIsExclusive(st: SchedulerState, agentId: string)
    ensures var (s1, started1) := AfterTryLock(st, agentId);
      var (s2, started2) := AfterTryLock(s1, agentId);
      agentId in s1.locked && !started2 && s2 == s1 && (started1 <==> agentId !in st.locked)
  {
  }

  class CouncilorSchedulerService {
    /** Timer ids returned by `setInterval`, by agent id. */
    var scheduledTasks: map<string, nat>
    var executionLock: set<string>
    var activeInvestigations: int

    function State(): SchedulerState
      reads this
    {
      SchedulerState(scheduledTasks, executionLock, activeInvestigations)
    }

    predicate Valid()
      reads this
    {
      activeInvestigations >= 0
    }

    constructor ()
      ensures scheduledTasks == map[] && executionLock == {} && activeInvestigations == 0 && Valid()
    {
      scheduledTasks := map[];
      executionLock := {};
      activeInvestigations := 0;
    }

    method CancelTask(agentId: string)
      modifies this
      ensures State() == AfterCancel(old(State()), agentId)
    {
      if agentId in scheduledTasks && scheduledTasks[agentId] != 0 {
        scheduledTasks := scheduledTasks - {agentId};
      }
    }

    method ScheduleTask(agentId: string, config: Option<CouncilorConfig>, timer: nat)
      modifies this
      ensures State() == AfterSchedule(old(State()), agentId, config, timer)
    {
      if config.None? {
        return;
      }
      CancelTask(agentId);
      if config.value.scheduleType == Interval {
        scheduledTasks := scheduledTasks[agentId := timer];
      }
    }

    /** The lock taken at the start of `executeTask`; `started` is false when the councilor is still running. */
    method BeginExecution(agentId: string) returns (started: bool)
      modifies this
      ensures (State(), started) == AfterTryLock(old(State()), agentId)
    {
      if agentId in executionLock {
        return false;
      }
      executionLock := executionLock + {agentId};
      started := true;
    }

    /** The `finally` of `executeTask`. */
    method EndExecution(agentId: string)
      modifies this
      ensures executionLock == old(executionLock) - {agentId}
      ensures scheduledTasks == old(scheduledTasks) && activeInvestigations == old(activeInvestigations)
    {
      executionLock := executionLock - {agentId};
    }

    method IncrementActiveInvestigations()
      requires Valid()
      modifies this
      ensures Valid() && activeInvestigations == old(activeInvestigations) + 1
      ensures scheduledTasks == old(scheduledTasks) && executionLock == old(executionLock)
    {
      activeInvestigations := activeInvestigations + 1;
    }

    /** `Math.max(0, current - 1)`: the count never goes below zero. */
    method DecrementActiveInvestigations()
      modifies this
      ensures Valid()
      ensures activeInvestigations == (if old(activeInvestigations) - 1 > 0 then old(activeInvestigations) - 1 else 0)
      ensures scheduledTasks == old(scheduledTasks) && executionLock == old(executionLock)
    {
      var current := activeInvestigations;
      activeInvestigations := if current - 1 > 0 then current - 1 else 0;
    }

    /** `ngOnDestroy()`: every timer and lock is dropped. */
    method Destroy()
      modifies this
      ensures scheduledTasks == map[] && executionLock == {} && activeInvestigations == old(activeInvestigations)
    {
      scheduledTasks := map[];
      executionLock := {};
    }
  }
}
