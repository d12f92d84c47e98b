/** The maintenance check: one pass over the enabled tasks that sorts what it
    finds into three severity lists and ends with a status and a notification. */
module MaintenanceCheck {
  import opened Std
  import opened Models
  import opened Scheduler

  datatype Severity = INFO | WARNING | CRITICAL

  /** The finding behind an issue; wording is left to the presenters. */
  datatype Finding = NeverExecuted | TaskOverdue(blockedBy: Option<SkipReason>) | FailedAndDue | TimerBroken

  datatype Issue = Issue(
    taskName: string, severity: Severity, finding: Finding,
    daysOverdue: Option<int>, lastRun: Option<int>, lastStatus: Option<TaskStatus>)

  datatype Settings = Settings(critical: int, warning: int, notifyFrom: Severity, showNotifications: bool,
                               savesReport: bool)

  datatype Summary = Summary(monitored: nat, critical: nat, warning: nat, info: nat) {
    predicate HasIssues() { critical != 0 || warning != 0 || info != 0 }
  }

  datatype Details = Details(critical: seq<Issue>, warning: seq<Issue>, info: seq<Issue>, summary: Summary)

  datatype Report = Report(status: TaskStatus, error: bool, details: Details)

  function DetermineSeverity(s: Settings, daysOverdue: int): Severity {
    if daysOverdue >= s.critical then CRITICAL
    else if daysOverdue >= s.warning then WARNING
    else INFO
  }

  /** The blockers a recommendation names. */
  function BlockedHint(r: Record): Option<SkipReason> {
    if r.lastStatus == Some(SKIPPED) && r.skipReason in {Some(REBOOT_REQUIRED), Some(MIRRORLIST_STALE)}
    then r.skipReason else None
  }

  // ----- the reference: findings as conditions on record and clock -----

  predicate IsOverdueManual(c: TaskConfig, r: Record, now: int) {
    r.lastRun.Some? && c.taskType.MANUAL? && Due(r, c.frequency, now)
  }

  predicate IsFailedAndDue(c: TaskConfig, r: Record, now: int) {
    r.lastRun.Some? && c.taskType.AUTOMATED? && r.lastStatus == Some(FAILURE) && Due(r, c.frequency, now)
  }

  /** More than one and a half frequencies overdue, in whole days. */
  predicate IsTimerBroken(c: TaskConfig, r: Record, now: int) {
    r.lastRun.Some? && c.taskType.AUTOMATED? && 2 * InfoOf(c, r, now).daysOverdue > 3 * c.frequency
  }

  function IssuesOf(c: TaskConfig, r: Record, s: Settings, now: int): seq<Issue> {
    var days := InfoOf(c, r, now).daysOverdue;
    (if r.lastRun.None? then [Issue(c.name, INFO, NeverExecuted, None, None, None)] else [])
    + (if IsOverdueManual(c, r, now)
       then [Issue(c.name, DetermineSeverity(s, days), TaskOverdue(BlockedHint(r)), Some(days), r.lastRun, r.lastStatus)]
       else [])
    + (if IsFailedAndDue(c, r, now)
       then [Issue(c.name, WARNING, FailedAndDue, Some(days), r.lastRun, r.lastStatus)] else [])
    + (if IsTimerBroken(c, r, now)
       then [Issue(c.name, CRITICAL, TimerBroken, Some(days), r.lastRun, r.lastStatus)] else [])
  }

  /** Everything found over the enabled tasks, the check itself excepted. The
      clock is read once per task. */
  function Found(enabled: TasksConfig, b: Book, s: Settings, self: string, clock: Clock): seq<Issue> {
    if enabled == [] then []
    else
      var t := enabled[|enabled| - 1];
      Found(enabled[..|enabled| - 1], b, s, self, clock)
      + (if t.name == self then [] else IssuesOf(t, Entry(b, t.name), s, clock(t.name)))
  }

  /** The issues of one severity, in the order they were found. */
  function Of(issues: seq<Issue>, severity: Severity): seq<Issue> {
    if issues == [] then []
    else Of(issues[..|issues| - 1], severity)
         + (if issues[|issues| - 1].severity == severity then [issues[|issues| - 1]] else [])
  }

  lemma {:induction false} OfAppend(a: seq<Issue>, b: seq<Issue>, severity: Severity)
    ensures Of(a + b, severity) == Of(a, severity) + Of(b, severity)
  {
    if b == [] {
      assert a + b == a;
    } else {
      var init := b[..|b| - 1];
      OfAppend(a, init, severity);
      assert (a + b)[..|a + b| - 1] == a + init;
    }
  }

  lemma OfSnoc(issues: seq<Issue>, i: nat, severity: Severity)
    requires i < |issues|
    ensures Of(issues[..i + 1], severity)
            == Of(issues[..i], severity) + (if issues[i].severity == severity then [issues[i]] else [])
  {
    assert issues[..i + 1][..i] == issues[..i];
  }

  lemma OfNothing(issues: seq<Issue>)
    ensures forall severity :: Of(issues[..0], severity) == []
  {
  }

  class MaintenanceCheckTask {
    const name: string
    const settings: Settings
    const scheduler: TaskScheduler
    const hasManager: bool
    var info: seq<Issue>
    var warning: seq<Issue>
    var critical: seq<Issue>

    constructor (name: string, settings: Settings, scheduler: TaskScheduler, hasManager: bool)
      ensures this.name == name && this.settings == settings && this.scheduler == scheduler
      ensures this.hasManager == hasManager && info == warning == critical == []
    {
      this.name, this.settings, this.scheduler, this.hasManager := name, settings, scheduler, hasManager;
      info, warning, critical := [], [], [];
    }

    method CategorizeIssues(issues: seq<Issue>)
      modifies this
      ensures critical == old(critical) + Of(issues, CRITICAL)
      ensures warning == old(warning) + Of(issues, WARNING)
      ensures info == old(info) + Of(issues, INFO)
    {
      hide Of;
      OfNothing(issues);
      for i := 0 to |issues|
        invariant critical == old(critical) + Of(issues[..i], CRITICAL)
        invariant warning == old(warning) + Of(issues[..i], WARNING)
        invariant info == old(info) + Of(issues[..i], INFO)
      {
        OfSnoc(issues, i, CRITICAL);
        OfSnoc(issues, i, WARNING);
        OfSnoc(issues, i, INFO);
        match issues[i].severity {
          case CRITICAL => critical := critical + [issues[i]];
          case WARNING => warning := warning + [issues[i]];
          case INFO => info := info + [issues[i]];
        }
      }
      assert issues[..|issues|] == issues;
    }

    /** Nothing is added iff the task is not due; else one issue about it, whose
        severity says which thresholds its days have reached. */
    method CheckOverdueTask(days: int, issues: seq<Issue>, schedule: ScheduleInfo, c: TaskConfig, r: Record)
      returns (out: seq<Issue>)
      ensures issues <= out && |out| <= |issues| + 1
      ensures out == issues <==> !schedule.isDue
      ensures schedule.isDue ==>
                var i := out[|issues|];
                && i.taskName == c.name && i.finding == TaskOverdue(BlockedHint(r))
                && i.daysOverdue == Some(days) && i.lastRun == r.lastRun && i.lastStatus == r.lastStatus
                && (i.severity == CRITICAL <==> days >= settings.critical)
                && (i.severity == INFO <==> days < settings.critical && days < settings.warning)
    {
      out := issues;
      if schedule.isDue {
        out := out + [Issue(c.name, DetermineSeverity(settings, days), TaskOverdue(BlockedHint(r)),
                            Some(days), r.lastRun, r.lastStatus)];
      }
    }

    /** The findings of one task, in the order of the checks. */
    method CheckTask(c: TaskConfig, now: int) returns (issues: seq<Issue>)
      requires scheduler.state.Valid() && GetTask(scheduler.config, c.name) == Some(c)
      modifies scheduler.state
      ensures scheduler.state.Valid() && fresh(scheduler.state.Repr() - old(scheduler.state.Repr()))
      ensures scheduler.state.Value() == Touched(old(scheduler.state.Value()), c.name)
      ensures issues == IssuesOf(c, Entry(old(scheduler.state.Value()), c.name), settings, now)
    {
      ghost var rec := Entry(scheduler.state.Value(), c.name);
      var s := scheduler.state.GetTaskState(c.name);
      assert s.Value() == scheduler.state.Value()[c.name] == rec;
      var r := Record(s.lastRun, s.lastStatus, s.nextDue, s.runCount, s.lastError, s.skipReason, s.lastNewsPrompt);
      TouchedTwice(old(scheduler.state.Value()), c.name);
      hide InfoOf, IssuesOf, AppState.Value, AppState.Valid, Touched;
      var schedule := scheduler.GetScheduleInfo(c.name, now);
      issues := Inspect(c, r, schedule.value, now);
    }

    /** The checks themselves, on a task's record and its schedule. */
    method Inspect(c: TaskConfig, r: Record, schedule: ScheduleInfo, ghost now: int) returns (issues: seq<Issue>)
      requires schedule == InfoOf(c, r, now)
      ensures issues == IssuesOf(c, r, settings, now)
    {
      hide InfoOf;
      InfoMeaning(c, r, now);
      var days := schedule.daysOverdue;
      issues := [];
      if r.lastRun.None? {
        return [Issue(c.name, INFO, NeverExecuted, None, None, None)];
      }
      match c.taskType {
        case MANUAL =>
          issues := CheckOverdueTask(days, issues, schedule, c, r);
        case AUTOMATED =>
          if r.lastStatus == Some(FAILURE) {
            if schedule.isDue {
              issues := issues + [Issue(c.name, WARNING, FailedAndDue, Some(days), r.lastRun, r.lastStatus)];
            }
          }
          if 2 * days > 3 * c.frequency {
            issues := issues + [Issue(c.name, CRITICAL, TimerBroken, Some(days), r.lastRun, r.lastStatus)];
          }
      }
    }

    /** The lists hold what they held before, and then `found` by severity. */
    ghost predicate Filed(before: Details, found: seq<Issue>)
      reads this
    {
      && critical == before.critical + Of(found, CRITICAL)
      && warning == before.warning + Of(found, WARNING)
      && info == before.info + Of(found, INFO)
    }

    ghost function Lists(): Details
      reads this
    {
      Details(critical, warning, info, Summary.Summary(0, 0, 0, 0))
    }

    /** Checks one task and files what it finds. */
    method CheckAndFile(c: TaskConfig, now: int, ghost before: Details, ghost found: seq<Issue>, ghost b: Book,
                        ghost seen: set<string>)
      requires scheduler.state.Valid() && GetTask(scheduler.config, c.name) == Some(c)
      requires scheduler.state.Value() == Visited(b, seen) && Filed(before, found)
      modifies this, scheduler.state
      ensures scheduler.state.Valid() && fresh(scheduler.state.Repr() - old(scheduler.state.Repr()))
      ensures scheduler.state.Value() == Visited(b, seen + {c.name})
      ensures Filed(before, found + IssuesOf(c, Entry(b, c.name), settings, now))
    {
      hide AppState.Value, AppState.Valid, IssuesOf, Of, Visited;
      VisitOneMore(b, seen, c.name);
      var issues := CheckTask(c, now);
      OfAppend(found, issues, CRITICAL);
      OfAppend(found, issues, WARNING);
      OfAppend(found, issues, INFO);
      CategorizeIssues(issues);
    }

    method CheckAll(enabled: TasksConfig, clock: Clock)
      requires scheduler.state.Valid() && WellFormed(scheduler.config) && enabled == GetEnabledTasks(scheduler.config)
      modifies this, scheduler.state
      ensures scheduler.state.Valid() && fresh(scheduler.state.Repr() - old(scheduler.state.Repr()))
      ensures Filed(old(Lists()), Found(enabled, old(scheduler.state.Value()), settings, name, clock))
      ensures scheduler.state.Value() == Visited(old(scheduler.state.Value()), Monitored(enabled, name))
    {
      hide AppState.Value, AppState.Valid, IssuesOf, Of, Found, WellFormed, Filed, Visited, Monitored;
      ghost var b, before := scheduler.state.Value(), Lists();
      NothingFound(enabled, b, settings, name, clock);
      NothingFiled();
      for i := 0 to |enabled|
        invariant scheduler.state.Valid() && fresh(scheduler.state.Repr() - old(scheduler.state.Repr()))
        invariant scheduler.state.Value() == Visited(b, Monitored(enabled[..i], name))
        invariant Filed(before, Found(enabled[..i], b, settings, name, clock))
      {
        OneMoreTask(scheduler.config, enabled, i, b, settings, name, clock);
        if enabled[i].name == name {
          // the check does not monitor itself
          assert Found(enabled[..i + 1], b, settings, name, clock) == Found(enabled[..i], b, settings, name, clock);
        } else {
          CheckAndFile(enabled[i], clock(enabled[i].name), before, Found(enabled[..i], b, settings, name, clock), b,
                       Monitored(enabled[..i], name));
        }
      }
      assert enabled[..|enabled|] == enabled;
    }

    method Execute(clock: Clock) returns (report: Report)
      requires scheduler.state.Valid() && WellFormed(scheduler.config)
      modifies this, scheduler.state
      ensures scheduler.state.Valid() && fresh(scheduler.state.Repr() - old(scheduler.state.Repr()))
      ensures Filed(old(Lists()),
                    Found(GetEnabledTasks(scheduler.config), old(scheduler.state.Value()), settings, name, clock))
      ensures scheduler.state.Value()
              == Visited(old(scheduler.state.Value()), Monitored(GetEnabledTasks(scheduler.config), name))
      ensures report == ReportOf(critical, warning, info, |GetEnabledTasks(scheduler.config)|)
      ensures report.details.critical == critical && report.details.warning == warning && report.details.info == info
      ensures report.details.summary
              == Summary.Summary(|GetEnabledTasks(scheduler.config)|, |critical|, |warning|, |info|)
    {
      hide AppState.Value, AppState.Valid, IssuesOf, Of, Found, WellFormed, Filed, Visited, Monitored;
      var enabled := GetEnabledTasks(scheduler.config);
      CheckAll(enabled, clock);
      var summary := Summary.Summary(|enabled|, |critical|, |warning|, |info|);
      var status := SUCCESS;
      if critical != [] {
        status := FAILURE;
      } else if warning != [] {
        status := PARTIAL;
      }
      report := Report(status, critical != [], Details(critical, warning, info, summary));
    }

    lemma NothingFiled()
      ensures Filed(Lists(), [])
    {
    }

    /** A notification went out with the worst severity iff there are issues, a
        manager to send it, and that severity reaches the configured level. */
    ghost predicate Notified(d: Details, sent: Option<Severity>) {
      sent == if d.summary.HasIssues() && hasManager && Rank(Worst(d)) >= Rank(Some(settings.notifyFrom))
              then Worst(d) else None
    }

    /** The issues are counted but sit in no list. */
    predicate Lost(d: Details) {
      d.summary.HasIssues() && d.critical == [] && d.warning == [] && d.info == []
    }

    /** The follow-up of a check: the notification, unless notifications are off,
        and then the report file, where one is wanted. What was sent is sent, even
        when saving the report raises. */
    method PostExecute(details: Option<Details>, save: Reply<()>)
      returns (sent: Option<Severity>, saving: bool, r: Reply<()>)
      ensures r.Raises? <==> !Announced(details) || (saving && save.Raises?)
      ensures saving <==> settings.savesReport && Announced(details)
      ensures settings.showNotifications && Announced(details) ==> Notified(details.value, sent)
      ensures !settings.showNotifications || !Announced(details) ==> sent == None
    {
      sent, saving := None, false;
      if details.None? { return None, false, Raises("details should not be None"); }
      if settings.showNotifications {
        var notified := SendNotification(details.value);
        if notified.Raises? { return None, false, Raises(notified.error); }
        sent := notified.value;
      }
      saving := settings.savesReport;
      r := if saving then save else Returns(());
    }

    /** There are details, and notifying about them does not raise. */
    predicate Announced(details: Option<Details>) {
      details.Some? && !(settings.showNotifications && Lost(details.value))
    }

    /** Sends at most one notification; the severity it was sent with, if sent. */
    method SendNotification(d: Details) returns (sent: Reply<Option<Severity>>)
      ensures sent.Raises? <==> Lost(d)
      ensures sent.Returns? ==> Notified(d, sent.value)
      ensures sent.Returns? ==>
                (sent.value.Some? <==>
                   hasManager && d.summary.HasIssues()
                   && (d.critical != [] || (d.warning != [] && settings.notifyFrom != CRITICAL)
                       || (d.info != [] && settings.notifyFrom == INFO)))
      ensures sent.Returns? && sent.value.Some? ==>
                sent.value.value == if d.critical != [] then CRITICAL else if d.warning != [] then WARNING else INFO
    {
      var severity := INFO;
      if !d.summary.HasIssues() { return Returns(None); }
      if d.critical != [] {
        severity := CRITICAL;
      } else if d.warning != [] {
        severity := WARNING;
      } else if d.info != [] {
        severity := INFO;
      } else {
        return Raises("details cannot have issues and empty issues at the same time");
      }
      if Rank(Some(severity)) < Rank(Some(settings.notifyFrom)) { return Returns(None); }
      return Returns(if hasManager then Some(severity) else None);
    }
  }

  lemma TouchedTwice(b: Book, name: string)
    ensures Touched(Touched(b, name), name) == Touched(b, name)
    ensures Entry(Touched(b, name), name) == Entry(b, name)
  {
  }

  lemma NothingFound(enabled: TasksConfig, b: Book, s: Settings, self: string, clock: Clock)
    ensures Found(enabled[..0], b, s, self, clock) == [] && Visited(b, Monitored(enabled[..0], self)) == b
  {
  }

  /** The tasks a check looks at: all enabled ones but itself. */
  function Monitored(enabled: TasksConfig, self: string): set<string> {
    set t | t in enabled && t.name != self :: t.name
  }

  lemma OneMoreTask(config: TasksConfig, enabled: TasksConfig, i: nat, b: Book, s: Settings, self: string,
                    clock: Clock)
    requires WellFormed(config) && enabled == GetEnabledTasks(config) && i < |enabled|
    ensures GetTask(config, enabled[i].name) == Some(enabled[i])
    ensures Found(enabled[..i + 1], b, s, self, clock) ==
            Found(enabled[..i], b, s, self, clock)
            + (if enabled[i].name == self then []
               else IssuesOf(enabled[i], Entry(b, enabled[i].name), s, clock(enabled[i].name)))
    ensures Monitored(enabled[..i + 1], self) ==
            if enabled[i].name == self then Monitored(enabled[..i], self)
            else Monitored(enabled[..i], self) + {enabled[i].name}
  {
    hide IssuesOf, WellFormed, GetTask, GetEnabledTasks;
    EnabledTasksAreFound(config);
    assert enabled[i] in enabled;
    assert enabled[..i + 1][..i] == enabled[..i] && enabled[..i + 1][i] == enabled[i];
    assert enabled[..i + 1] == enabled[..i] + [enabled[i]];
  }

  /** The report on given lists: counts, and the status of the worst list. */
  function ReportOf(critical: seq<Issue>, warning: seq<Issue>, info: seq<Issue>, monitored: nat): Report {
    Report(if critical != [] then FAILURE else if warning != [] then PARTIAL else SUCCESS,
           critical != [],
           Details(critical, warning, info, Summary.Summary(monitored, |critical|, |warning|, |info|)))
  }

  function Rank(s: Option<Severity>): nat {
    match s
    case None => 0
    case Some(INFO) => 1
    case Some(WARNING) => 2
    case Some(CRITICAL) => 3
  }

  function Worst(d: Details): Option<Severity> {
    if d.critical != [] then Some(CRITICAL)
    else if d.warning != [] then Some(WARNING)
    else if d.info != [] then Some(INFO)
    else None
  }

  // ----- what a check guarantees -----

  lemma {:induction false} OfCounts(found: seq<Issue>, severity: Severity, x: Issue)
    ensures multiset(Of(found, severity))[x] == if x.severity == severity then multiset(found)[x] else 0
  {
    if found != [] {
      OfCounts(found[..|found| - 1], severity, x);
      assert found == found[..|found| - 1] + [found[|found| - 1]];
    }
  }

  /** The three lists together are a rearrangement of everything found, each issue
      in the list of its own severity. */
  lemma ListsPartitionFindings(found: seq<Issue>)
    ensures multiset(Of(found, CRITICAL)) + multiset(Of(found, WARNING)) + multiset(Of(found, INFO)) == multiset(found)
    ensures forall severity, x :: x in Of(found, severity) <==> x in found && x.severity == severity
  {
    hide Of;
    var all := multiset(Of(found, CRITICAL)) + multiset(Of(found, WARNING)) + multiset(Of(found, INFO));
    forall x: Issue
      ensures all[x] == multiset(found)[x]
    {
      OfCounts(found, CRITICAL, x);
      OfCounts(found, WARNING, x);
      OfCounts(found, INFO, x);
    }
    forall severity, x: Issue
      ensures x in Of(found, severity) <==> x in found && x.severity == severity
    {
      InListIff(found, severity, x);
    }
  }

  lemma InListIff(found: seq<Issue>, severity: Severity, x: Issue)
    ensures x in Of(found, severity) <==> x in found && x.severity == severity
  {
  }

  /** No task adds more than two issues, and two only as a failed run and a broken
      timer together; a task that never ran adds exactly one, an INFO. */
  lemma AtMostTwoPerTask(c: TaskConfig, r: Record, s: Settings, now: int)
    ensures var issues := IssuesOf(c, r, s, now);
            && |issues| <= 2
            && (|issues| == 2 <==> IsFailedAndDue(c, r, now) && IsTimerBroken(c, r, now))
            && (forall i <- issues :: i.taskName == c.name)
            && (r.lastRun.None? ==> |issues| == 1 && issues[0].severity == INFO && issues[0].finding == NeverExecuted)
  {
  }

  /** The counts are the list lengths, the status is that of the worst list, and
      the notifier's complaint about issues in no list cannot arise. */
  lemma ReportIsConsistent(critical: seq<Issue>, warning: seq<Issue>, info: seq<Issue>, monitored: nat)
    ensures var r := ReportOf(critical, warning, info, monitored);
            && r.details.critical == critical && r.details.warning == warning && r.details.info == info
            && r.details.summary.critical == |critical| && r.details.summary.warning == |warning|
            && r.details.summary.info == |info| && r.details.summary.monitored == monitored
            && (r.error <==> critical != [])
            && r.details.summary.HasIssues() == (critical + warning + info != [])
            && (r.status == FAILURE <==> Worst(r.details) == Some(CRITICAL))
            && (r.status == PARTIAL <==> Worst(r.details) == Some(WARNING))
            && (r.status == SUCCESS <==> Rank(Worst(r.details)) <= 1)
            && !(r.details.summary.HasIssues()
                 && r.details.critical == [] && r.details.warning == [] && r.details.info == [])
  {
  }

  /** How many whole days the task's date is past; 0 before it. */
  function DaysLate(c: TaskConfig, r: Record, now: int): nat
    requires r.lastRun.Some?
  {
    var due := if r.nextDue.Some? then r.nextDue.value else r.lastRun.value + c.frequency * DAY;
    if now < due then 0 else (now - due) / DAY
  }

  predicate Reached(c: TaskConfig, r: Record, now: int)
    requires r.lastRun.Some?
  {
    (if r.nextDue.Some? then r.nextDue.value else r.lastRun.value + c.frequency * DAY) <= now
  }

  /** Every finding about a task, with all it says, case by case. */
  lemma FindingsByCase(c: TaskConfig, r: Record, s: Settings, now: int)
    ensures IssuesOf(c, r, s, now) ==
            if r.lastRun.None? then [Issue(c.name, INFO, NeverExecuted, None, None, None)]
            else
              var days, due := DaysLate(c, r, now), Reached(c, r, now);
              match c.taskType
              case MANUAL =>
                if !due then []
                else
                  [Issue(c.name,
                         if days >= s.critical then CRITICAL else if days >= s.warning then WARNING else INFO,
                         TaskOverdue(if r.lastStatus == Some(SKIPPED) && (r.skipReason == Some(REBOOT_REQUIRED)
                                                                          || r.skipReason == Some(MIRRORLIST_STALE))
                                     then r.skipReason else None),
                         Some(days), r.lastRun, r.lastStatus)]
              case AUTOMATED =>
                (if due && r.lastStatus == Some(FAILURE)
                 then [Issue(c.name, WARNING, FailedAndDue, Some(days), r.lastRun, r.lastStatus)] else [])
                + (if 2 * days > 3 * c.frequency
                   then [Issue(c.name, CRITICAL, TimerBroken, Some(days), r.lastRun, r.lastStatus)] else [])
  {
  }

  /** A check goes through the tasks in order, and finds about each what its own
      record and clock reading say; about itself it finds nothing. */
  lemma FoundInOrder(a: TasksConfig, t: TaskConfig, z: TasksConfig, b: Book, s: Settings, self: string, clock: Clock)
    ensures Found(a + [t] + z, b, s, self, clock)
            == Found(a, b, s, self, clock)
               + (if t.name == self then [] else IssuesOf(t, Entry(b, t.name), s, clock(t.name)))
               + Found(z, b, s, self, clock)
  {
    FoundOfTwo(a + [t], z, b, s, self, clock);
    hide IssuesOf;
    assert (a + [t])[..|a|] == a;
  }

  lemma {:induction false} FoundOfTwo(a: TasksConfig, z: TasksConfig, b: Book, s: Settings, self: string, clock: Clock)
    ensures Found(a + z, b, s, self, clock) == Found(a, b, s, self, clock) + Found(z, b, s, self, clock)
  {
    hide IssuesOf;
    if z == [] {
      assert a + z == a;
    } else {
      var init := z[..|z| - 1];
      FoundOfTwo(a, init, b, s, self, clock);
      assert (a + z)[..|a + z| - 1] == a + init;
    }
  }

  // ----- time only makes things worse -----

  ghost function WorstRank(issues: seq<Issue>): nat {
    if exists i <- issues :: i.severity == CRITICAL then 3
    else if exists i <- issues :: i.severity == WARNING then 2
    else if issues != [] then 1
    else 0
  }

  function StatusRank(s: TaskStatus): nat {
    match s
    case FAILURE => 2
    case PARTIAL => 1
    case _ => 0
  }

  lemma DaysGrow(c: TaskConfig, r: Record, now: int, later: int)
    requires now <= later
    ensures InfoOf(c, r, now).daysOverdue <= InfoOf(c, r, later).daysOverdue
    ensures Due(r, c.frequency, now) ==> Due(r, c.frequency, later)
  {
  }

  /** With the task's record fixed, its worst severity never falls as the clock
      advances, for manual and automated tasks alike. */
  lemma SeverityNeverFalls(c: TaskConfig, r: Record, s: Settings, now: int, later: int)
    requires now <= later
    ensures WorstRank(IssuesOf(c, r, s, now)) <= WorstRank(IssuesOf(c, r, s, later))
  {
    DaysGrow(c, r, now, later);
    TaskRank(c, r, s, now);
    TaskRank(c, r, s, later);
  }

  /** A task's worst severity in closed form. */
  lemma TaskRank(c: TaskConfig, r: Record, s: Settings, now: int)
    ensures WorstRank(IssuesOf(c, r, s, now)) ==
            if r.lastRun.None? then 1
            else if c.taskType.MANUAL? then
              (if Due(r, c.frequency, now)
               then Rank(Some(DetermineSeverity(s, InfoOf(c, r, now).daysOverdue))) else 0)
            else if IsTimerBroken(c, r, now) then 3
            else if IsFailedAndDue(c, r, now) then 2
            else 0
  {
  }

  lemma WorstOfLists(found: seq<Issue>, monitored: nat)
    ensures var r := ReportOf(Of(found, CRITICAL), Of(found, WARNING), Of(found, INFO), monitored);
            && WorstRank(found) == Rank(Worst(r.details))
            && StatusRank(r.status) == (if WorstRank(found) >= 2 then WorstRank(found) - 1 else 0)
  {
    hide Of;
    ListsPartitionFindings(found);
    if Of(found, CRITICAL) != [] { InListIff(found, CRITICAL, Of(found, CRITICAL)[0]); }
    if Of(found, WARNING) != [] { InListIff(found, WARNING, Of(found, WARNING)[0]); }
    if Of(found, INFO) != [] { InListIff(found, INFO, Of(found, INFO)[0]); }
    if i :| i in found && i.severity == CRITICAL {
      assert i in Of(found, CRITICAL);
    } else if i :| i in found && i.severity == WARNING {
      assert i in Of(found, WARNING);
    } else {
      assert Of(found, CRITICAL) == [] && Of(found, WARNING) == [];
      if found != [] {
        assert found[0] in found;
        assert found[0] in Of(found, INFO);
      }
    }
  }

  lemma WorstAppend(a: seq<Issue>, b: seq<Issue>)
    ensures WorstRank(a + b) == (if WorstRank(a) < WorstRank(b) then WorstRank(b) else WorstRank(a))
  {
  }

  lemma {:induction false} FoundNeverImproves(enabled: TasksConfig, b: Book, s: Settings, self: string,
                                              clock: Clock, later: Clock)
    requires forall n: string :: clock(n) <= later(n)
    ensures WorstRank(Found(enabled, b, s, self, clock)) <= WorstRank(Found(enabled, b, s, self, later))
  {
    if enabled != [] {
      hide IssuesOf, WorstRank;
      var init, t := enabled[..|enabled| - 1], enabled[|enabled| - 1];
      FoundNeverImproves(init, b, s, self, clock, later);
      var r := Entry(b, t.name);
      SeverityNeverFalls(t, r, s, clock(t.name), later(t.name));
      WorstAppend(Found(init, b, s, self, clock), IssuesOf(t, r, s, clock(t.name)));
      WorstAppend(Found(init, b, s, self, later), IssuesOf(t, r, s, later(t.name)));
      assert Found(init, b, s, self, clock) + [] == Found(init, b, s, self, clock);
      assert Found(init, b, s, self, later) + [] == Found(init, b, s, self, later);
    }
  }

  /** With the state fixed, a later check never reports a better status. */
  lemma StatusNeverImproves(enabled: TasksConfig, b: Book, s: Settings, self: string,
                            clock: Clock, later: Clock, monitored: nat)
    requires forall n: string :: clock(n) <= later(n)
    ensures var a, z := Found(enabled, b, s, self, clock), Found(enabled, b, s, self, later);
            StatusRank(ReportOf(Of(a, CRITICAL), Of(a, WARNING), Of(a, INFO), monitored).status)
            <= StatusRank(ReportOf(Of(z, CRITICAL), Of(z, WARNING), Of(z, INFO), monitored).status)
  {
    FoundNeverImproves(enabled, b, s, self, clock, later);
    WorstOfLists(Found(enabled, b, s, self, clock), monitored);
    WorstOfLists(Found(enabled, b, s, self, later), monitored);
  }
}
