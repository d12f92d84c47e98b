/** The configuration and state models: task policy (`TaskConfig`), execution
    history (`TaskState`) and the state book (`AppState`). Timestamps are whole
    microseconds; `None` is a field that was never set. */
module Models {
  import opened Std

  const DAY: int := 86_400_000_000
  const MINUTE: int := 60_000_000

  datatype TaskStatus = SUCCESS | FAILURE | SKIPPED | PARTIAL

  datatype SkipReason =
    | NO_WORK_NEEDED | DISABLED | DEPENDENCY_FAILED | USER_CANCELLED | NOT_DUE
    | MIRRORLIST_STALE | REBOOT_REQUIRED

  datatype TaskType = AUTOMATED | MANUAL

  datatype TaskConfig = TaskConfig(name: string, taskType: TaskType, frequency: int, enabled: bool)

  /** The loaded task table, in file order: one entry per name. */
  type TasksConfig = seq<TaskConfig>

  /** The field constraints of the configuration models. */
  predicate WellFormed(c: TasksConfig) {
    && (forall i | 0 <= i < |c| :: c[i].frequency > 0)
    && (forall i, j | 0 <= i < j < |c| :: c[i].name != c[j].name)
  }

  function GetTask(c: TasksConfig, name: string): Option<TaskConfig> {
    if c == [] then None
    else if c[0].name == name then Some(c[0])
    else GetTask(c[1..], name)
  }

  function GetEnabledTasks(c: TasksConfig): TasksConfig {
    if c == [] then []
    else (if c[0].enabled then [c[0]] else []) + GetEnabledTasks(c[1..])
  }

  lemma {:induction false} EnabledAreEnabled(c: TasksConfig)
    ensures |GetEnabledTasks(c)| <= |c|
    ensures forall t :: t in GetEnabledTasks(c) <==> t in c && t.enabled
  {
    if c != [] {
      EnabledAreEnabled(c[1..]);
      assert c == [c[0]] + c[1..];
    }
  }

  /** They keep the order of the configuration. */
  lemma {:induction false} EnabledInOrder(a: TasksConfig, b: TasksConfig)
    ensures GetEnabledTasks(a + b) == GetEnabledTasks(a) + GetEnabledTasks(b)
  {
    if a == [] {
      assert a + b == b;
    } else {
      assert (a + b)[1..] == a[1..] + b;
      EnabledInOrder(a[1..], b);
    }
  }

  lemma {:induction false} EachIsFound(c: TasksConfig, t: TaskConfig)
    requires WellFormed(c) && t in c
    ensures GetTask(c, t.name) == Some(t)
  {
    if t != c[0] {
      var i :| 0 <= i < |c| && c[i] == t;
      assert c[1..][i - 1] == t;
      EachIsFound(c[1..], t);
    }
  }

  lemma {:induction false} EnabledWellFormed(c: TasksConfig)
    requires WellFormed(c)
    ensures WellFormed(GetEnabledTasks(c))
  {
    if c != [] {
      EnabledWellFormed(c[1..]);
      EnabledAreEnabled(c[1..]);
      assert forall t <- c[1..] :: t.name != c[0].name && t.frequency > 0;
    }
  }

  /** The enabled tasks are the enabled entries, each found again by its name. */
  lemma EnabledTasksAreFound(c: TasksConfig)
    requires WellFormed(c)
    ensures WellFormed(GetEnabledTasks(c)) && |GetEnabledTasks(c)| <= |c|
    ensures forall t :: t in GetEnabledTasks(c) <==> t in c && t.enabled
    ensures forall t <- c :: GetTask(c, t.name) == Some(t)
  {
    hide WellFormed, GetEnabledTasks, GetTask;
    EnabledWellFormed(c);
    EnabledAreEnabled(c);
    forall t <- c
      ensures GetTask(c, t.name) == Some(t)
    {
      EachIsFound(c, t);
    }
  }

  /** The value of a `TaskState` object at one moment. */
  datatype Record = Record(
    lastRun: Option<int>,
    lastStatus: Option<TaskStatus>,
    nextDue: Option<int>,
    runCount: nat,
    lastError: Option<string>,
    skipReason: Option<SkipReason>,
    lastNewsPrompt: Option<int>)

  const FRESH: Record := Record(None, None, None, 0, None, None, None)

  /** The value of an `AppState`. */
  type Book = map<string, Record>

  /** A task's record; a task without an entry reads as a fresh one. */
  function Entry(b: Book, name: string): Record {
    if name in b then b[name] else FRESH
  }

  /** The book after the lazy insertion that every lookup performs. */
  function Touched(b: Book, name: string): Book {
    b[name := Entry(b, name)]
  }

  /** The book after lookups of all these tasks. */
  function Visited(b: Book, names: set<string>): Book {
    map n | n in b.Keys + names :: Entry(b, n)
  }

  lemma VisitOneMore(b: Book, names: set<string>, n: string)
    ensures Visited(b, {}) == b && Touched(Visited(b, names), n) == Visited(b, names + {n})
    ensures Entry(Visited(b, names), n) == Entry(b, n)
  {
  }

  /** The record after an outcome was recorded at `now`. */
  function Recorded(r: Record, status: TaskStatus, nextDue: Option<int>, error: Option<string>,
                    skipReason: Option<SkipReason>, now: int): Record {
    Record(Some(now), Some(status), nextDue, r.runCount + 1, error, skipReason, r.lastNewsPrompt)
  }

  class TaskState {
    var lastRun: Option<int>
    var lastStatus: Option<TaskStatus>
    var nextDue: Option<int>
    var runCount: nat
    var lastError: Option<string>
    var skipReason: Option<SkipReason>
    var lastNewsPrompt: Option<int>

    constructor ()
      ensures Value() == FRESH
    {
      lastRun, lastStatus, nextDue, runCount := None, None, None, 0;
      lastError, skipReason, lastNewsPrompt := None, None, None;
    }

    ghost function Value(): Record
      reads this
    {
      Record(lastRun, lastStatus, nextDue, runCount, lastError, skipReason, lastNewsPrompt)
    }

    /** The field assignments of `AppState.UpdateTaskState`. */
    method Assign(status: TaskStatus, due: Option<int>, error: Option<string>,
                  reason: Option<SkipReason>, now: int)
      modifies this
      ensures Value() == Recorded(old(Value()), status, due, error, reason, now)
    {
      lastRun := Some(now);
      lastStatus := Some(status);
      nextDue := due;
      runCount := runCount + 1;
      lastError := error;
      skipReason := reason;
    }
  }

  class AppState {
    var tasks: map<string, TaskState>
    var lastUpdated: int

    constructor (now: int)
      ensures Valid() && Value() == map[] && lastUpdated == now
      ensures fresh(Repr())
    {
      tasks, lastUpdated := map[], now;
    }

    ghost function Repr(): set<object>
      reads this
    {
      {this} + set n | n in tasks :: tasks[n]
    }

    /** No two names share a `TaskState` object. */
    ghost predicate Valid()
      reads this
    {
      forall m, n | m in tasks && n in tasks && tasks[m] == tasks[n] :: m == n
    }

    ghost function Value(): Book
      reads Repr()
    {
      map n | n in tasks :: tasks[n].Value()
    }

    /** The state object of a task, created on first access; the second access
        returns the same object. */
    method GetTaskState(name: string) returns (s: TaskState)
      requires Valid()
      modifies this
      ensures Valid() && name in tasks && s == tasks[name]
      ensures Value() == Touched(old(Value()), name)
      ensures name in old(tasks) ==> tasks == old(tasks)
      ensures fresh(Repr() - old(Repr())) && lastUpdated == old(lastUpdated)
    {
      if name !in tasks {
        var t := new TaskState();
        tasks := tasks[name := t];
      }
      s := tasks[name];
    }

    method SetTaskNewsPrompt(name: string, now: int)
      requires Valid()
      modifies Repr()
      ensures Valid() && fresh(Repr() - old(Repr()))
      ensures Value() == old(Value())[name := Entry(old(Value()), name).(lastNewsPrompt := Some(now))]
    {
      var s := GetTaskState(name);
      assert s.Value() == Value()[name];
      s.lastNewsPrompt := Some(now);
    }

    method UpdateTaskState(name: string, status: TaskStatus, nextDue: Option<int>,
                           error: Option<string>, skipReason: Option<SkipReason>, now: int)
      requires Valid()
      modifies Repr()
      ensures Valid() && fresh(Repr() - old(Repr())) && lastUpdated == now
      ensures Value() == old(Value())[name :=
                Recorded(Entry(old(Value()), name), status, nextDue, error, skipReason, now)]
    {
      hide Recorded, TaskState.Value;
      var s := GetTaskState(name);
      s.Assign(status, nextDue, error, skipReason, now);
      lastUpdated := now;
    }
  }
}
