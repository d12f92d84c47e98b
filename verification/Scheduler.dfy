/** Schedule answers: when a task is due, by how much it is overdue, and the
    sorted lists and counts built from them. */
module Scheduler {
  import opened Std
  import opened Models
  import opened StableSort

  /** `datetime.max` in microseconds; stands in for a missing due date in sorts. */
  const DATETIME_MAX: int := 253_402_300_799_999_999

  datatype Reason = NeverRun | DueNow | OverdueBy(days: int) | DueTomorrow | DueIn(days: int)

  datatype ScheduleInfo = ScheduleInfo(
    taskName: string,
    isDue: bool,
    lastRun: Option<int>,
    nextDue: Option<int>,
    daysOverdue: int,
    reason: Reason)

  function Max(a: int, b: int): int {
    if a < b then b else a
  }

  function InfoOf(c: TaskConfig, r: Record, now: int): ScheduleInfo {
    if r.lastRun.None? then ScheduleInfo(c.name, true, None, None, 0, NeverRun)
    else
      var nextDue := if r.nextDue.Some? then r.nextDue.value else r.lastRun.value + c.frequency * DAY;
      var untilDue := nextDue - now;
      var isDue := untilDue <= 0;
      var daysOverdue := Max(0, -untilDue / DAY);
      var daysUntil := untilDue / DAY + 1;
      ScheduleInfo(c.name, isDue, r.lastRun, Some(nextDue), daysOverdue,
                   if isDue then (if daysOverdue == 0 then DueNow else OverdueBy(daysOverdue))
                   else (if daysUntil == 1 then DueTomorrow else DueIn(daysUntil)))
  }

  /** The date a task's schedule hangs on; `None` before its first recorded run. */
  function Effective(r: Record, frequency: int): Option<int> {
    if r.lastRun.None? then None
    else if r.nextDue.Some? then r.nextDue
    else Some(r.lastRun.value + frequency * DAY)
  }

  predicate Due(r: Record, frequency: int, now: int) {
    Effective(r, frequency).None? || Effective(r, frequency).value <= now
  }

  /** What an answer means in terms of the effective date. */
  lemma InfoMeaning(c: TaskConfig, r: Record, now: int)
    ensures var i := InfoOf(c, r, now);
            && i.taskName == c.name && i.lastRun == r.lastRun
            && i.isDue == Due(r, c.frequency, now)
            && i.nextDue == Effective(r, c.frequency)
            && (i.daysOverdue > 0 ==> i.isDue && i.nextDue.Some?)
            && (i.isDue && i.nextDue.Some? ==>
                  i.daysOverdue * DAY <= now - i.nextDue.value < (i.daysOverdue + 1) * DAY)
            && (!i.isDue || i.nextDue.None? ==> i.daysOverdue == 0)
            && (i.reason.NeverRun? <==> r.lastRun.None?)
            && (i.reason.DueNow? <==> i.isDue && i.nextDue.Some? && now - i.nextDue.value < DAY)
            && (i.isDue && i.daysOverdue > 0 ==> i.reason == OverdueBy(i.daysOverdue))
            && (i.reason.DueTomorrow? <==> !i.isDue && i.nextDue.value - now < DAY)
            && (i.reason.DueTomorrow? ==> !i.isDue && i.nextDue.Some? && i.nextDue.value - now < DAY)
            && (i.reason.DueIn? ==>
                  !i.isDue && i.reason.days >= 2 && i.nextDue.Some?
                  && (i.reason.days - 1) * DAY <= i.nextDue.value - now < i.reason.days * DAY)
  {
  }

  /** The lazy insertion behind every lookup never changes an answer. */
  lemma TouchingIsInvisible(b: Book, m: string, c: TaskConfig, now: int)
    ensures InfoOf(c, Entry(Touched(b, m), c.name), now) == InfoOf(c, Entry(b, c.name), now)
  {
  }

  // ----- the lists -----

  /** A loop over tasks reads the clock once for each of them. */
  type Clock = string -> int

  function Infos(enabled: TasksConfig, b: Book, now: Clock): seq<ScheduleInfo> {
    if enabled == [] then []
    else
      var t := enabled[|enabled| - 1];
      Infos(enabled[..|enabled| - 1], b, now) + [InfoOf(t, Entry(b, t.name), now(t.name))]
  }

  /** One answer per task, in order, each from that task's own record and clock
      reading. */
  lemma {:induction false} InfosInOrder(enabled: TasksConfig, b: Book, now: Clock)
    ensures |Infos(enabled, b, now)| == |enabled|
    ensures forall i | 0 <= i < |enabled| ::
              Infos(enabled, b, now)[i] == InfoOf(enabled[i], Entry(b, enabled[i].name), now(enabled[i].name))
  {
    if enabled != [] {
      hide InfoOf;
      InfosInOrder(enabled[..|enabled| - 1], b, now);
    }
  }

  function DueOnly(s: seq<ScheduleInfo>): seq<ScheduleInfo> {
    if s == [] then []
    else DueOnly(s[..|s| - 1]) + (if s[|s| - 1].isDue then [s[|s| - 1]] else [])
  }

  function TouchedAll(b: Book, enabled: TasksConfig): Book {
    if enabled == [] then b
    else Touched(TouchedAll(b, enabled[..|enabled| - 1]), enabled[|enabled| - 1].name)
  }

  lemma {:induction false} TouchedAllReads(b: Book, enabled: TasksConfig, name: string)
    ensures Entry(TouchedAll(b, enabled), name) == Entry(b, name)
  {
    if enabled != [] {
      TouchedAllReads(b, enabled[..|enabled| - 1], name);
      TouchedAllReads(b, enabled[..|enabled| - 1], enabled[|enabled| - 1].name);
    }
  }

  lemma Nothing(enabled: TasksConfig, b: Book, now: Clock)
    ensures Infos(enabled[..0], b, now) == [] && TouchedAll(b, enabled[..0]) == b && DueOnly([]) == []
  {
  }

  /** One step of the scheduler's loops. */
  lemma OneMore(config: TasksConfig, enabled: TasksConfig, i: nat, b: Book, now: Clock)
    requires WellFormed(config) && enabled == GetEnabledTasks(config) && i < |enabled|
    ensures GetTask(config, enabled[i].name) == Some(enabled[i])
    ensures var info := InfoOf(enabled[i], Entry(TouchedAll(b, enabled[..i]), enabled[i].name), now(enabled[i].name));
            && Infos(enabled[..i + 1], b, now) == Infos(enabled[..i], b, now) + [info]
            && DueOnly(Infos(enabled[..i + 1], b, now))
               == DueOnly(Infos(enabled[..i], b, now)) + (if info.isDue then [info] else [])
    ensures TouchedAll(b, enabled[..i + 1]) == Touched(TouchedAll(b, enabled[..i]), enabled[i].name)
  {
    hide InfoOf;
    EnabledTasksAreFound(config);
    assert enabled[i] in enabled;
    assert enabled[..i + 1][..i] == enabled[..i];
    TouchedAllReads(b, enabled[..i], enabled[i].name);
    var before := Infos(enabled[..i], b, now);
    var info := InfoOf(enabled[i], Entry(TouchedAll(b, enabled[..i]), enabled[i].name), now(enabled[i].name));
    assert (before + [info])[..|before|] == before;
  }

  function MostOverdueFirst(): ScheduleInfo -> Key {
    (i: ScheduleInfo) => (-i.daysOverdue, 0)
  }

  function DueThenDate(): ScheduleInfo -> Key {
    (i: ScheduleInfo) => (if i.isDue then 0 else 1, if i.nextDue.Some? then i.nextDue.value else DATETIME_MAX)
  }

  datatype Summary = Summary(total: nat, due: nat, overdue: nat, upcoming: nat)

  class TaskScheduler {
    const config: TasksConfig
    const state: AppState

    constructor (config: TasksConfig, state: AppState)
      ensures this.config == config && this.state == state
    {
      this.config, this.state := config, state;
    }

    method GetScheduleInfo(name: string, now: int) returns (r: Reply<ScheduleInfo>)
      requires state.Valid()
      modifies state
      ensures state.Valid() && fresh(state.Repr() - old(state.Repr()))
      ensures GetTask(config, name).None? ==> r.Raises? && state.Value() == old(state.Value())
      ensures GetTask(config, name).Some? ==>
                && r == Returns(InfoOf(GetTask(config, name).value, Entry(old(state.Value()), name), now))
                && state.Value() == Touched(old(state.Value()), name)
    {
      var task := GetTask(config, name);
      if task.None? { return Raises("unknown task"); }
      NameFound(config, name);
      var s := state.GetTaskState(name);
      assert s.Value() == state.Value()[name];
      if s.lastRun.None? { return Returns(ScheduleInfo(task.value.name, true, None, None, 0, NeverRun)); }
      var nextDue := s.lastRun.value + task.value.frequency * DAY;
      if s.nextDue.Some? { nextDue := s.nextDue.value; }
      var untilDue := nextDue - now;
      var isDue := untilDue <= 0;
      var daysOverdue := Max(0, -untilDue / DAY);
      var reason;
      if isDue {
        reason := if daysOverdue == 0 then DueNow else OverdueBy(daysOverdue);
      } else {
        var daysUntil := untilDue / DAY + 1;
        reason := if daysUntil == 1 then DueTomorrow else DueIn(daysUntil);
      }
      return Returns(ScheduleInfo(task.value.name, isDue, s.lastRun, Some(nextDue), daysOverdue, reason));
    }

    /** One answer per enabled task, in configuration order. */
    method CollectInfos(now: Clock) returns (infos: seq<ScheduleInfo>)
      requires state.Valid() && WellFormed(config)
      modifies state
      ensures state.Valid() && infos == Infos(GetEnabledTasks(config), old(state.Value()), now)
      ensures state.Value() == TouchedAll(old(state.Value()), GetEnabledTasks(config))
      ensures fresh(state.Repr() - old(state.Repr()))
    {
      hide Infos, TouchedAll, Touched, InfoOf, DueOnly, WellFormed, AppState.Value, AppState.Valid;
      var enabled := GetEnabledTasks(config);
      infos := [];
      Nothing(enabled, state.Value(), now);
      for i := 0 to |enabled|
        invariant state.Valid() && infos == Infos(enabled[..i], old(state.Value()), now)
        invariant state.Value() == TouchedAll(old(state.Value()), enabled[..i])
        invariant fresh(state.Repr() - old(state.Repr()))
      {
        OneMore(config, enabled, i, old(state.Value()), now);
        var info := GetScheduleInfo(enabled[i].name, now(enabled[i].name));
        infos := infos + [info.value];
      }
      assert enabled[..|enabled|] == enabled;
    }

    method GetDueTasks(now: Clock) returns (due: seq<ScheduleInfo>)
      requires state.Valid() && WellFormed(config)
      modifies state
      ensures state.Valid() && fresh(state.Repr() - old(state.Repr()))
      ensures due == Sort(DueOnly(Infos(GetEnabledTasks(config), old(state.Value()), now)), MostOverdueFirst())
      ensures state.Value() == TouchedAll(old(state.Value()), GetEnabledTasks(config))
    {
      hide Infos, TouchedAll, Touched, InfoOf, DueOnly, WellFormed, AppState.Value, AppState.Valid;
      var enabled := GetEnabledTasks(config);
      due := [];
      Nothing(enabled, state.Value(), now);
      for i := 0 to |enabled|
        invariant state.Valid() && due == DueOnly(Infos(enabled[..i], old(state.Value()), now))
        invariant state.Value() == TouchedAll(old(state.Value()), enabled[..i])
        invariant fresh(state.Repr() - old(state.Repr()))
      {
        OneMore(config, enabled, i, old(state.Value()), now);
        var info := GetScheduleInfo(enabled[i].name, now(enabled[i].name));
        if info.value.isDue {
          due := due + [info.value];
        }
      }
      assert enabled[..|enabled|] == enabled;
      due := Sort(due, MostOverdueFirst());
    }

    method GetAllScheduleInfo(now: Clock) returns (all: seq<ScheduleInfo>)
      requires state.Valid() && WellFormed(config)
      modifies state
      ensures state.Valid() && fresh(state.Repr() - old(state.Repr()))
      ensures all == Sort(Infos(GetEnabledTasks(config), old(state.Value()), now), DueThenDate())
      ensures state.Value() == TouchedAll(old(state.Value()), GetEnabledTasks(config))
    {
      all := CollectInfos(now);
      all := Sort(all, DueThenDate());
    }

    /** The counts; the upcoming loop reads the clock again for every entry. */
    method GetMaintenanceSummary(now: Clock, later: Clock) returns (s: Summary)
      requires state.Valid() && WellFormed(config)
      modifies state
      ensures state.Valid() && fresh(state.Repr() - old(state.Repr()))
      ensures s == SummaryOf(Sort(Infos(GetEnabledTasks(config), old(state.Value()), now), DueThenDate()), later)
      ensures state.Value() == TouchedAll(old(state.Value()), GetEnabledTasks(config))
    {
      hide Infos, TouchedAll, Sort, AppState.Value, AppState.Repr, AppState.Valid, WellFormed;
      var all := GetAllScheduleInfo(now);
      var due, overdue, upcoming := 0, 0, 0;
      for i := 0 to |all|
        invariant due == |DueOnly(all[..i])| && overdue == Overdue(all[..i]) && upcoming == Upcoming(all[..i], later)
      {
        assert all[..i + 1][..i] == all[..i];
        if all[i].isDue { due := due + 1; }
        if all[i].daysOverdue > 0 { overdue := overdue + 1; }
        if !all[i].isDue && all[i].nextDue.Some? {
          if (all[i].nextDue.value - later(all[i].taskName)) / DAY <= 7 { upcoming := upcoming + 1; }
        }
      }
      assert all[..|all|] == all;
      s := Summary(|all|, due, overdue, upcoming);
    }
  }

  lemma {:induction false} NameFound(c: TasksConfig, name: string)
    ensures GetTask(c, name).Some? ==> GetTask(c, name).value.name == name
  {
    if c != [] { NameFound(c[1..], name); }
  }

  // ----- the counts -----

  function Overdue(s: seq<ScheduleInfo>): nat {
    if s == [] then 0
    else Overdue(s[..|s| - 1]) + (if s[|s| - 1].daysOverdue > 0 then 1 else 0)
  }

  /** Not due yet, and due within less than eight days. */
  predicate Soon(i: ScheduleInfo, now: int) {
    !i.isDue && i.nextDue.Some? && i.nextDue.value - now < 8 * DAY
  }

  function Upcoming(s: seq<ScheduleInfo>, now: Clock): nat {
    if s == [] then 0
    else Upcoming(s[..|s| - 1], now) + (if Soon(s[|s| - 1], now(s[|s| - 1].taskName)) then 1 else 0)
  }

  function SummaryOf(s: seq<ScheduleInfo>, now: Clock): Summary {
    Summary(|s|, |DueOnly(s)|, Overdue(s), Upcoming(s, now))
  }

  // ----- what the lists and counts guarantee -----

  predicate Sane(i: ScheduleInfo, now: int) {
    && (i.daysOverdue > 0 ==> i.isDue)
    && (i.nextDue.None? ==> i.isDue && i.daysOverdue == 0)
    && (i.nextDue.Some? ==> (i.isDue <==> i.nextDue.value <= now))
  }

  lemma {:induction false} InfosAreSane(enabled: TasksConfig, b: Book, now: Clock)
    ensures forall i <- Infos(enabled, b, now) :: Sane(i, now(i.taskName))
    ensures |Infos(enabled, b, now)| == |enabled|
  {
    if enabled != [] {
      InfosAreSane(enabled[..|enabled| - 1], b, now);
    }
  }

  lemma {:induction false} DueOnlyCounts(s: seq<ScheduleInfo>, x: ScheduleInfo)
    ensures multiset(DueOnly(s))[x] == if x.isDue then multiset(s)[x] else 0
  {
    if s != [] {
      DueOnlyCounts(s[..|s| - 1], x);
      assert s == s[..|s| - 1] + [s[|s| - 1]];
    }
  }

  /** The due list holds exactly the due part of the full list. */
  lemma DueListIsDuePart(s: seq<ScheduleInfo>)
    ensures multiset(Sort(DueOnly(s), MostOverdueFirst())) == multiset(DueOnly(Sort(s, DueThenDate())))
  {
    SortIsStable(DueOnly(s), MostOverdueFirst());
    SortIsStable(s, DueThenDate());
    forall x
      ensures multiset(DueOnly(s))[x] == multiset(DueOnly(Sort(s, DueThenDate())))[x]
    {
      DueOnlyCounts(s, x);
      DueOnlyCounts(Sort(s, DueThenDate()), x);
    }
  }

  /** The due list is ordered by days overdue, most first, and tasks equally
      overdue keep their configuration order. */
  lemma DueListOrder(s: seq<ScheduleInfo>)
    ensures var due := Sort(DueOnly(s), MostOverdueFirst());
            && (forall i, j | 0 <= i < j < |due| :: due[i].daysOverdue >= due[j].daysOverdue)
            && (forall k: Key :: Band(due, MostOverdueFirst(), k) == Band(DueOnly(s), MostOverdueFirst(), k))
  {
    var key := MostOverdueFirst();
    var due := Sort(DueOnly(s), key);
    SortIsStable(DueOnly(s), key);
    forall i, j | 0 <= i < j < |due|
      ensures due[i].daysOverdue >= due[j].daysOverdue
    {
      assert Leq(key(due[i]), key(due[j]));
    }
  }

  /** The full list puts due tasks first, dated ones by date, then never-run
      ones, then the tasks still to come, by date. */
  lemma FullListOrder(enabled: TasksConfig, b: Book, now: Clock, i: nat, j: nat)
    requires forall n: string :: now(n) < DATETIME_MAX
    requires i < j < |Sort(Infos(enabled, b, now), DueThenDate())|
    ensures var all := Sort(Infos(enabled, b, now), DueThenDate());
            && (all[j].isDue ==> all[i].isDue)
            && (all[i].isDue && all[j].isDue && all[j].nextDue.Some? ==>
                  all[i].nextDue.Some? && all[i].nextDue.value <= all[j].nextDue.value)
            && (!all[i].isDue ==>
                  && !all[j].isDue && all[i].nextDue.Some? && all[j].nextDue.Some?
                  && all[i].nextDue.value <= all[j].nextDue.value)
  {
    var infos, key := Infos(enabled, b, now), DueThenDate();
    var all := Sort(infos, key);
    InfosAreSane(enabled, b, now);
    SortIsStable(infos, key);
    assert all[i] in multiset(infos) && all[j] in multiset(infos);
    assert Sane(all[i], now(all[i].taskName)) && Sane(all[j], now(all[j].taskName));
    assert Leq(key(all[i]), key(all[j]));
  }

  /** Overdue tasks are due ones, due and upcoming tasks are different ones, and
      the counts do not depend on the order they are taken in. */
  lemma SummaryBounds(enabled: TasksConfig, b: Book, now: Clock, later: Clock)
    ensures var s := SummaryOf(Sort(Infos(enabled, b, now), DueThenDate()), later);
            && s.overdue <= s.due && s.due + s.upcoming <= s.total == |enabled|
            && s == SummaryOf(Infos(enabled, b, now), later)
  {
    var infos, key := Infos(enabled, b, now), DueThenDate();
    InfosAreSane(enabled, b, now);
    SortIsStable(infos, key);
    CountsFit(infos, now, later);
    SortCounts(infos, key, later);
  }

  /** The places in a list whose answers have a property. */
  function Places(s: seq<ScheduleInfo>, p: ScheduleInfo -> bool): set<nat> {
    set i: nat | i < |s| && p(s[i])
  }

  lemma OneMorePlace(s: seq<ScheduleInfo>, p: ScheduleInfo -> bool)
    requires s != []
    ensures |Places(s, p)| == |Places(s[..|s| - 1], p)| + (if p(s[|s| - 1]) then 1 else 0)
  {
    var last := |s| - 1;
    assert Places(s, p) == Places(s[..last], p) + (if p(s[last]) then {last} else {});
  }

  /** What is counted: the answers that are due, those at least one whole day late,
      and those that come due in less than eight days. */
  lemma {:induction false} CountsMean(s: seq<ScheduleInfo>, now: Clock)
    ensures var n := SummaryOf(s, now);
            && n.total == |s|
            && n.due == |Places(s, (i: ScheduleInfo) => i.isDue)|
            && n.overdue == |Places(s, (i: ScheduleInfo) => i.daysOverdue >= 1)|
            && n.upcoming == |Places(s, (i: ScheduleInfo) =>
                                !i.isDue && i.nextDue.Some? && i.nextDue.value - now(i.taskName) < 8 * DAY)|
  {
    if s != [] {
      CountsMean(s[..|s| - 1], now);
      OneMorePlace(s, (i: ScheduleInfo) => i.isDue);
      OneMorePlace(s, (i: ScheduleInfo) => i.daysOverdue >= 1);
      OneMorePlace(s, (i: ScheduleInfo) =>
                     !i.isDue && i.nextDue.Some? && i.nextDue.value - now(i.taskName) < 8 * DAY);
    }
  }

  // ----- the upcoming count against its documentation -----

  /** Not due yet, and due within the next seven days. */
  predicate WithinWeek(i: ScheduleInfo, now: int) {
    !i.isDue && i.nextDue.Some? && i.nextDue.value - now <= 7 * DAY
  }

  /** Not due yet, and due in the course of the eighth day. */
  predicate OnEighthDay(i: ScheduleInfo, now: int) {
    !i.isDue && i.nextDue.Some? && 7 * DAY < i.nextDue.value - now < 8 * DAY
  }

  function Week(s: seq<ScheduleInfo>, now: Clock): nat {
    if s == [] then 0
    else Week(s[..|s| - 1], now) + (if WithinWeek(s[|s| - 1], now(s[|s| - 1].taskName)) then 1 else 0)
  }

  /** The upcoming count is never below the documented one, and equals it iff no
      task falls due on the eighth day. */
  lemma {:induction false} UpcomingIsWeekIff(s: seq<ScheduleInfo>, now: Clock)
    ensures Week(s, now) <= Upcoming(s, now)
    ensures Upcoming(s, now) == Week(s, now) <==> forall i <- s :: !OnEighthDay(i, now(i.taskName))
  {
    if s != [] {
      var init, last := s[..|s| - 1], s[|s| - 1];
      UpcomingIsWeekIff(init, now);
      assert s == init + [last];
      assert Soon(last, now(last.taskName)) <==> WithinWeek(last, now(last.taskName)) || OnEighthDay(last, now(last.taskName));
    }
  }

  /** One task, due in seven and a half days, is counted. */
  lemma EighthDayIsCounted()
    ensures var task := TaskConfig("system-update", MANUAL, 8, true);
            var ran := FRESH.(lastRun := Some(0), lastStatus := Some(SUCCESS), nextDue := Some(8 * DAY), runCount := 1);
            var now: Clock := _ => DAY / 2;
            var infos := Infos([task], map["system-update" := ran], now);
            Upcoming(infos, now) == 1 && Week(infos, now) == 0
  {
    var task := TaskConfig("system-update", MANUAL, 8, true);
    var ran := FRESH.(lastRun := Some(0), lastStatus := Some(SUCCESS), nextDue := Some(8 * DAY), runCount := 1);
    var now: Clock := _ => DAY / 2;
    var book := map["system-update" := ran];
    assert Infos([task][..0], book, now) == [];
    var infos := Infos([task], book, now);
    assert infos == [InfoOf(task, ran, DAY / 2)];
    assert infos[..0] == [];
  }

  lemma {:induction false} CountsFit(s: seq<ScheduleInfo>, now: Clock, later: Clock)
    requires forall i <- s :: Sane(i, now(i.taskName))
    ensures Overdue(s) <= |DueOnly(s)| && |DueOnly(s)| + Upcoming(s, later) <= |s|
  {
    if s != [] {
      CountsFit(s[..|s| - 1], now, later);
      assert s[|s| - 1] in s;
    }
  }

  lemma {:induction false} SortCounts(s: seq<ScheduleInfo>, key: ScheduleInfo -> Key, later: Clock)
    ensures SummaryOf(Sort(s, key), later) == SummaryOf(s, later)
  {
    if s != [] {
      SortCounts(s[..|s| - 1], key, later);
      InsertCounts(Sort(s[..|s| - 1], key), s[|s| - 1], key, later);
    }
  }

  lemma {:induction false} InsertCounts(s: seq<ScheduleInfo>, x: ScheduleInfo, key: ScheduleInfo -> Key, later: Clock)
    ensures SummaryOf(Insert(s, x, key), later) == SummaryOf(s + [x], later)
  {
    hide SummaryOf, Overdue, Upcoming, DueOnly, Soon, Leq;
    if s != [] && !Leq(key(s[|s| - 1]), key(x)) {
      var init, last := s[..|s| - 1], s[|s| - 1];
      InsertCounts(init, x, key, later);
      CountSnoc(Insert(init, x, key), last, later);
      CountSnoc(init, x, later);
      CountSnoc(init, last, later);
      CountSnoc(s, x, later);
      assert s == init + [last];
    }
  }

  lemma CountSnoc(s: seq<ScheduleInfo>, x: ScheduleInfo, later: Clock)
    ensures var a, b := SummaryOf(s + [x], later), SummaryOf(s, later);
            && a.total == b.total + 1
            && a.due == b.due + (if x.isDue then 1 else 0)
            && a.overdue == b.overdue + (if x.daysOverdue > 0 then 1 else 0)
            && a.upcoming == b.upcoming + (if Soon(x, later(x.taskName)) then 1 else 0)
  {
  }
}
