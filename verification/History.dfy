/** Histories of triggers over all tasks: what the schedule keeps, whatever is
    triggered, forced, refused, disabled or failing in between. */
module History {
  import opened Std
  import opened Models
  import opened Scheduler
  import opened Executor

  type History = seq<Trigger>

  /** The book after a history, started from `b`. */
  function Replay(b: Book, h: History): Book {
    if h == [] then b else After(Replay(b, h[..|h| - 1]), h[|h| - 1])
  }

  /** The book that trigger `i` of the history meets. */
  function BookAt(b: Book, h: History, i: nat): Book
    requires i <= |h|
  {
    Replay(b, h[..i])
  }

  lemma BookStep(b: Book, h: History, i: nat)
    requires i < |h|
    ensures BookAt(b, h, i + 1) == After(BookAt(b, h, i), h[i])
  {
    assert h[..i + 1][..i] == h[..i];
  }

  /** The clock never runs backwards, inside a trigger or between two. */
  predicate Clocked(h: History) {
    && (forall i | 0 <= i < |h| :: h[i].checkedAt <= h[i].dueFrom <= h[i].recordedAt)
    && (forall i, j | 0 <= i < j < |h| :: h[i].recordedAt <= h[j].checkedAt)
  }

  /** The task's frequency is the same in every configuration that names it. */
  predicate Steady(h: History, name: string, frequency: int) {
    forall i | 0 <= i < |h| ::
      GetTask(h[i].config, name).Some? ==> GetTask(h[i].config, name).value.frequency == frequency
  }

  /** A trigger of one task leaves every other task's record alone. */
  lemma OthersUntouched(b: Book, g: Trigger, name: string)
    requires g.task != name
    ensures Entry(After(b, g), name) == Entry(b, name)
  {
  }

  /** Trigger `i` recorded an outcome for the task. */
  predicate Records(b: Book, h: History, i: nat, name: string)
    requires i < |h|
  {
    h[i].task == name && RecordedOutcome(BookAt(b, h, i), h[i]).Some?
  }

  /** The record of `name` moves only at its own recorded outcomes. */
  lemma RecordStep(b: Book, h: History, i: nat, name: string, frequency: int)
    requires i < |h| && Steady(h, name, frequency)
    ensures var r, r' := Entry(BookAt(b, h, i), name), Entry(BookAt(b, h, i + 1), name);
            if Records(b, h, i, name) then
              var o := RecordedOutcome(BookAt(b, h, i), h[i]).value;
              && r'.lastRun == Some(h[i].recordedAt)
              && r'.nextDue == NextDue(r, o, frequency, h[i].dueFrom)
              && r'.runCount == r.runCount + 1
              && r'.lastStatus == Some(o.status) && r'.skipReason == o.skipReason && r'.lastError == o.error
              && r'.lastNewsPrompt == (if Decide(BookAt(b, h, i), h[i]).Ran? && h[i].prompted.Some?
                                       then h[i].prompted else r.lastNewsPrompt)
            else r' == r
  {
    BookStep(b, h, i);
  }

  // ----- spacing -----

  /** Trigger `i` ran its task, and the run completed. */
  predicate Completes(b: Book, h: History, i: nat)
    requires i < |h|
  {
    Decide(BookAt(b, h, i), h[i]).Ran? && h[i].run.Returns? && Completing(h[i].run.value)
  }

  /** The schedule of a task is at least one frequency past `since`. */
  predicate HeldUntil(r: Record, frequency: int, since: int) {
    Effective(r, frequency).Some? && Effective(r, frequency).value >= since + frequency * DAY
  }

  /** A headless, unforced trigger runs a task only once its date has come. */
  lemma HeadlessRunsOnlyWhenDue(b: Book, g: Trigger)
    requires g.headless && !g.force && Decide(b, g).Ran?
    ensures GetTask(g.config, g.task).Some? && GetTask(g.config, g.task).value.enabled
    ensures Due(Entry(b, g.task), GetTask(g.config, g.task).value.frequency, g.checkedAt)
  {
  }

  /** A run of a task that completes keeps every later headless, unforced trigger
      from running it for a full frequency, whatever triggers come in between:
      forced or interactive runs, refusals, failures, disabled periods, other
      tasks. So two completing runs of a headless history are that far apart. */
  lemma CompletedRunsAreSpaced(b: Book, h: History, name: string, frequency: int, i: nat, j: nat)
    requires Clocked(h) && Steady(h, name, frequency)
    requires i < j < |h| && h[i].task == name && h[j].task == name
    requires Completes(b, h, i)
    requires h[j].headless && !h[j].force && Decide(BookAt(b, h, j), h[j]).Ran?
    ensures h[j].checkedAt >= h[i].dueFrom + frequency * DAY
  {
    HeldAfter(b, h, name, frequency, i, j);
    HeadlessRunsOnlyWhenDue(BookAt(b, h, j), h[j]);
  }

  lemma {:induction false} HeldAfter(b: Book, h: History, name: string, frequency: int, i: nat, j: nat)
    requires Clocked(h) && Steady(h, name, frequency)
    requires i < j <= |h| && h[i].task == name
    requires Completes(b, h, i)
    ensures HeldUntil(Entry(BookAt(b, h, j), name), frequency, h[i].dueFrom)
  {
    RecordStep(b, h, j - 1, name, frequency);
    if j > i + 1 {
      HeldAfter(b, h, name, frequency, i, j - 1);
    }
  }

  // ----- blocked runs -----

  /** Every outcome recorded for the task in this stretch is a failure or a skip
      that neither completes nor disables. */
  predicate Blocked(b: Book, h: History, name: string, i: nat, j: nat)
    requires i <= j <= |h|
  {
    forall k | i <= k < j && Records(b, h, k, name) ::
      var o := RecordedOutcome(BookAt(b, h, k), h[k]).value;
      !Completing(o) && !Disabling(o)
  }

  /** Failed and blocked runs leave a stored due date where it is, any number of
      them; so a due task stays due. */
  lemma {:induction false} BlockedRunsKeepDueDate(b: Book, h: History, name: string, frequency: int, i: nat, j: nat)
    requires Steady(h, name, frequency) && i <= j <= |h| && Blocked(b, h, name, i, j)
    ensures Entry(BookAt(b, h, j), name).nextDue == Entry(BookAt(b, h, i), name).nextDue
    ensures Entry(BookAt(b, h, i), name).lastRun.Some? ==> Entry(BookAt(b, h, j), name).lastRun.Some?
    ensures Entry(BookAt(b, h, i), name).nextDue.Some? && Entry(BookAt(b, h, i), name).lastRun.Some? ==>
              Effective(Entry(BookAt(b, h, j), name), frequency) == Effective(Entry(BookAt(b, h, i), name), frequency)
  {
    if i < j {
      BlockedRunsKeepDueDate(b, h, name, frequency, i, j - 1);
      RecordStep(b, h, j - 1, name, frequency);
    }
  }

  /** With a stored due date, the headless triggers of an enabled task run it from
      that date on and not before, however many blocked runs lie in between. */
  lemma HeadlessRunsFromDueDate(b: Book, h: History, name: string, frequency: int, i: nat, j: nat)
    requires Steady(h, name, frequency) && i <= j < |h| && Blocked(b, h, name, i, j)
    requires Entry(BookAt(b, h, i), name).lastRun.Some? && Entry(BookAt(b, h, i), name).nextDue.Some?
    requires h[j].task == name && h[j].headless && !h[j].force && name in h[j].registered
    requires GetTask(h[j].config, name).Some? && GetTask(h[j].config, name).value.enabled
    ensures Decide(BookAt(b, h, j), h[j]).Ran? <==>
              h[j].checkedAt >= Entry(BookAt(b, h, i), name).nextDue.value
  {
    BlockedRunsKeepDueDate(b, h, name, frequency, i, j);
  }

  /** Without a stored due date there is nothing to keep: every blocked run slides
      the effective date to itself plus one frequency. */
  lemma BlockedRunSlidesWithoutDueDate(b: Book, h: History, name: string, frequency: int, i: nat)
    requires Steady(h, name, frequency) && i < |h| && Records(b, h, i, name) && Blocked(b, h, name, i, i + 1)
    requires Entry(BookAt(b, h, i), name).nextDue.None?
    ensures Entry(BookAt(b, h, i + 1), name).nextDue.None?
    ensures Effective(Entry(BookAt(b, h, i + 1), name), frequency) == Some(h[i].recordedAt + frequency * DAY)
  {
    RecordStep(b, h, i, name, frequency);
  }

  /** A disabling skip drops the stored date, and the task counts as freshly run:
      enabled again, it becomes due one frequency after the skip, not at once. */
  lemma DisabledSkipPostpones(b: Book, h: History, name: string, frequency: int, i: nat)
    requires Steady(h, name, frequency) && i < |h| && Records(b, h, i, name)
    requires Disabling(RecordedOutcome(BookAt(b, h, i), h[i]).value)
    ensures Effective(Entry(BookAt(b, h, i + 1), name), frequency) == Some(h[i].recordedAt + frequency * DAY)
    ensures frequency > 0 ==> !Due(Entry(BookAt(b, h, i + 1), name), frequency, h[i].recordedAt)
  {
    RecordStep(b, h, i, name, frequency);
  }

  /** Enabled again, the task is run by a headless trigger iff that comes a full
      frequency after the skip, as long as nothing else was recorded for it. */
  lemma EnabledAgainRunsIff(b: Book, h: History, name: string, frequency: int, i: nat, j: nat)
    requires Steady(h, name, frequency) && i < j < |h| && Records(b, h, i, name)
    requires Disabling(RecordedOutcome(BookAt(b, h, i), h[i]).value)
    requires forall k | i < k < j :: !Records(b, h, k, name)
    requires h[j].task == name && h[j].headless && !h[j].force && name in h[j].registered
    requires GetTask(h[j].config, name).Some? && GetTask(h[j].config, name).value.enabled
    ensures Decide(BookAt(b, h, j), h[j]).Ran? <==> h[j].checkedAt >= h[i].recordedAt + frequency * DAY
  {
    DisabledSkipPostpones(b, h, name, frequency, i);
    UnrecordedStays(b, h, name, frequency, i + 1, j);
  }

  lemma {:induction false} UnrecordedStays(b: Book, h: History, name: string, frequency: int, i: nat, j: nat)
    requires Steady(h, name, frequency) && i <= j <= |h|
    requires forall k | i <= k < j :: !Records(b, h, k, name)
    ensures Entry(BookAt(b, h, j), name) == Entry(BookAt(b, h, i), name)
  {
    if i < j {
      UnrecordedStays(b, h, name, frequency, i, j - 1);
      RecordStep(b, h, j - 1, name, frequency);
    }
  }

  /** A daily timer trigger of one weekly task, whose runs all fail. */
  function Daily(enabled: bool, day: nat): Trigger {
    Trigger([TaskConfig("weekly", AUTOMATED, 7, enabled)], {"weekly"}, "weekly", false, true,
            Returns(false), Returns(false), Returns(Outcome(FAILURE, None, Some("failed"))), None, {},
            day * DAY, day * DAY, day * DAY)
  }

  /** A weekly task that last succeeded on day 0 and was skipped as disabled on
      day 30 is refused, once enabled, on day 31: it does not count as overdue. */
  lemma EnabledAgainIsNotOverdue()
    ensures var done := Record(Some(0), Some(SUCCESS), Some(7 * DAY), 1, None, None, None);
            var b := After(map["weekly" := done], Daily(false, 30));
            && Decide(map["weekly" := done], Daily(false, 30)) == Refused(DISABLED_SKIP)
            && Decide(b, Daily(true, 31)) == Refused(NOT_DUE_SKIP)
  {
  }

  /** The first outcome ever recorded for a task stores a due date iff it is a
      completing one; a first failure in particular leaves the task run and
      undated. */
  lemma FirstOutcomeDatesIff(b: Book, g: Trigger)
    requires Entry(b, g.task) == FRESH && RecordedOutcome(b, g).Some?
    ensures Entry(After(b, g), g.task).lastRun == Some(g.recordedAt)
    ensures Entry(After(b, g), g.task).nextDue.Some? <==> Completing(RecordedOutcome(b, g).value)
    ensures RecordedOutcome(b, g).value.status == FAILURE ==> Entry(After(b, g), g.task).nextDue.None?
  {
  }

  /** A timer's history: headless, unforced triggers of one enabled task. */
  predicate TimerOnly(h: History, name: string) {
    forall i | 0 <= i < |h| ::
      && h[i].task == name && h[i].headless && !h[i].force && name in h[i].registered
      && GetTask(h[i].config, name).Some? && GetTask(h[i].config, name).value.enabled
  }

  /** When the task's schedule last moved before trigger `j`. */
  function LastMove(b: Book, h: History, name: string, j: nat): int
    requires j <= |h| && Entry(b, name).lastRun.Some?
  {
    if j == 0 then Entry(b, name).lastRun.value else h[j - 1].recordedAt
  }

  /** Trigger `j` comes less than one frequency after that. */
  predicate TooSoon(b: Book, h: History, name: string, frequency: int, j: nat)
    requires j < |h| && Entry(b, name).lastRun.Some?
  {
    h[j].checkedAt < LastMove(b, h, name, j) + frequency * DAY
  }

  /** Trigger `j` is refused as not due. */
  predicate TurnedAway(b: Book, h: History, j: nat)
    requires j < |h|
  {
    Decide(BookAt(b, h, j), h[j]) == Refused(NOT_DUE_SKIP)
  }

  /** For an undated task behind refusals only, a timer trigger runs it iff it
      comes a full frequency after the last record, be that a refusal. */
  lemma UndatedRunsIff(b: Book, h: History, name: string, frequency: int, j: nat)
    requires Steady(h, name, frequency) && TimerOnly(h, name) && j < |h|
    requires Entry(b, name).lastRun.Some? && Entry(b, name).nextDue.None?
    requires forall i | 0 <= i < j :: TurnedAway(b, h, i)
    ensures Decide(BookAt(b, h, j), h[j]).Ran? <==> !TooSoon(b, h, name, frequency, j)
    ensures TurnedAway(b, h, j) <==> TooSoon(b, h, name, frequency, j)
  {
    hide BookAt, LastMove;
    UndatedStays(b, h, name, frequency, j);
  }

  lemma RefusalIsRecorded(b: Book, h: History, name: string, i: nat)
    requires TimerOnly(h, name) && i < |h| && TurnedAway(b, h, i)
    ensures Records(b, h, i, name) && RecordedOutcome(BookAt(b, h, i), h[i]) == Some(NOT_DUE_SKIP)
  {
    hide Decide;
  }

  lemma {:induction false} UndatedStays(b: Book, h: History, name: string, frequency: int, j: nat)
    requires Steady(h, name, frequency) && TimerOnly(h, name) && j <= |h|
    requires Entry(b, name).lastRun.Some? && Entry(b, name).nextDue.None?
    requires forall i | 0 <= i < j :: TurnedAway(b, h, i)
    ensures Entry(BookAt(b, h, j), name).nextDue.None?
    ensures Entry(BookAt(b, h, j), name).lastRun == Some(LastMove(b, h, name, j))
  {
    if j > 0 {
      UndatedStays(b, h, name, frequency, j - 1);
      RecordStep(b, h, j - 1, name, frequency);
      RefusalIsRecorded(b, h, name, j - 1);
      hide Replay, BookAt, Records, Decide, Entry, TimerOnly, Steady;
    }
  }

  /** So a task that failed first is starved by its own timer, refusal after
      refusal, iff every trigger comes less than one frequency after the one
      before. */
  lemma FirstFailureStarvesIff(b: Book, h: History, name: string, frequency: int)
    requires Steady(h, name, frequency) && TimerOnly(h, name)
    requires Entry(b, name).lastRun.Some? && Entry(b, name).nextDue.None?
    ensures (forall j | 0 <= j < |h| :: TurnedAway(b, h, j))
            <==> forall j | 0 <= j < |h| :: TooSoon(b, h, name, frequency, j)
  {
    hide TurnedAway, TooSoon, Entry, BookAt, Decide, LastMove;
    if forall j | 0 <= j < |h| :: TooSoon(b, h, name, frequency, j) {
      TooSoonIsTurnedAway(b, h, name, frequency, |h|);
    }
    if forall j | 0 <= j < |h| :: TurnedAway(b, h, j) {
      forall j | 0 <= j < |h|
        ensures TooSoon(b, h, name, frequency, j)
      {
        UndatedRunsIff(b, h, name, frequency, j);
      }
    }
  }

  lemma {:induction false} TooSoonIsTurnedAway(b: Book, h: History, name: string, frequency: int, n: nat)
    requires Steady(h, name, frequency) && TimerOnly(h, name) && n <= |h|
    requires Entry(b, name).lastRun.Some? && Entry(b, name).nextDue.None?
    requires forall j | 0 <= j < |h| :: TooSoon(b, h, name, frequency, j)
    ensures forall j | 0 <= j < n :: TurnedAway(b, h, j)
  {
    hide TurnedAway, TooSoon, Entry, BookAt, Decide, LastMove;
    if n > 0 {
      TooSoonIsTurnedAway(b, h, name, frequency, n - 1);
      UndatedRunsIff(b, h, name, frequency, n - 1);
    }
  }

  function Days(n: nat): History {
    seq(n, i requires 0 <= i < n => Daily(true, i + 1))
  }

  /** A weekly task whose very first run fails is then turned away by its daily
      timer, however many days that goes on. */
  lemma StarvedForEver(n: nat)
    ensures Decide(map[], Daily(true, 0)).Ran?
    ensures forall j | 0 <= j < n :: TurnedAway(After(map[], Daily(true, 0)), Days(n), j)
  {
    var b, h := After(map[], Daily(true, 0)), Days(n);
    FirstOutcomeDatesIff(map[], Daily(true, 0));
    forall j | 0 <= j < n
      ensures TooSoon(b, h, "weekly", 7, j)
    {
      assert LastMove(b, h, "weekly", j) == j * DAY;
    }
    FirstFailureStarvesIff(b, h, "weekly", 7);
  }

  // ----- every reachable state -----

  /** How many outcomes were recorded for the task before trigger `i`. */
  function Recordings(b: Book, h: History, name: string, i: nat): nat
    requires i <= |h|
  {
    if i == 0 then 0 else Recordings(b, h, name, i - 1) + (if Records(b, h, i - 1, name) then 1 else 0)
  }

  /** From an empty state: the run count is the number of recorded outcomes, and
      any stored due date is at most one frequency past the last recorded run, so
      the date the scheduler reports is too. */
  lemma {:induction false} ReachableStates(h: History, name: string, frequency: int, i: nat)
    requires Clocked(h) && Steady(h, name, frequency) && i <= |h|
    ensures var r := Entry(BookAt(map[], h, i), name);
            && r.runCount == Recordings(map[], h, name, i)
            && (r.lastRun.None? <==> r.runCount == 0)
            && (r.lastRun.Some? ==> i > 0 && r.lastRun.value <= h[i - 1].recordedAt)
            && (r.nextDue.Some? ==> r.lastRun.Some? && r.nextDue.value <= r.lastRun.value + frequency * DAY)
            && (r.lastRun.Some? ==> Effective(r, frequency).value <= r.lastRun.value + frequency * DAY)
  {
    if i > 0 {
      ReachableStates(h, name, frequency, i - 1);
      RecordStep(map[], h, i - 1, name, frequency);
      assert i > 1 ==> h[i - 2].recordedAt <= h[i - 1].checkedAt;
    }
  }

  /** The scheduler's own words for it. */
  lemma ReportedDateIsBounded(h: History, c: TaskConfig, i: nat, now: int)
    requires Clocked(h) && Steady(h, c.name, c.frequency) && i <= |h|
    ensures var info := InfoOf(c, Entry(BookAt(map[], h, i), c.name), now);
            && (info.nextDue.Some? <==> info.lastRun.Some?)
            && (info.nextDue.Some? ==> info.nextDue.value <= info.lastRun.value + c.frequency * DAY)
  {
    ReachableStates(h, c.name, c.frequency, i);
  }
}
