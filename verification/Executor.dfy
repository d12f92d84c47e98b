/** The task executor: which triggers run a task, and what each records in the
    state book. */
module Executor {
  import opened Std
  import opened Models
  import opened Scheduler

  /** What a run, or a refusal to run, amounts to for the state book. */
  datatype Outcome = Outcome(status: TaskStatus, skipReason: Option<SkipReason>, error: Option<string>)

  const DISABLED_SKIP := Outcome(SKIPPED, Some(DISABLED), None)
  const CANCELLED_SKIP := Outcome(SKIPPED, Some(USER_CANCELLED), None)
  const NOT_DUE_SKIP := Outcome(SKIPPED, Some(NOT_DUE), None)

  /** One call of `execute_task`: what was asked, the replies to the two "Run
      anyway?" questions, how the run ends if it happens (it raises only while
      its logging is set up), the prompt time it writes, the tasks whose entries
      it looks up, and the three clock readings on the way. */
  datatype Trigger = Trigger(
    config: TasksConfig, registered: set<string>, task: string, force: bool, headless: bool,
    runDisabled: Reply<bool>, runEarly: Reply<bool>,
    run: Reply<Outcome>, prompted: Option<int>, visited: set<string>,
    checkedAt: int, dueFrom: int, recordedAt: int)

  datatype Decision = Unknown | Unregistered | Refused(outcome: Outcome) | Aborted(error: string) | Ran

  /** A "Run anyway?" question: no is a refusal, and no reply ends the trigger. */
  function OnConfirm(r: Reply<bool>, yes: Decision): Decision {
    if r.Raises? then Aborted(r.error) else if r.value then yes else Refused(CANCELLED_SKIP)
  }

  /** The reference: what a trigger comes to, from the book and the trigger alone. */
  function Decide(b: Book, g: Trigger): Decision {
    var task := GetTask(g.config, g.task);
    if task.None? then Unknown
    else if g.force then (if g.task in g.registered then Ran else Unregistered)
    else if task.value.enabled then DecideDue(b, g, task.value)
    else if g.task !in g.registered then Unregistered
    else if g.headless then Refused(DISABLED_SKIP)
    else OnConfirm(g.runDisabled, DecideDue(b, g, task.value))
  }

  /** The due date's part in it. */
  function DecideDue(b: Book, g: Trigger, task: TaskConfig): Decision {
    if g.task !in g.registered then Unregistered
    else if Due(Entry(b, g.task), task.frequency, g.checkedAt) then Ran
    else if g.headless then Refused(NOT_DUE_SKIP)
    else OnConfirm(g.runEarly, Ran)
  }

  /** The outcome a trigger records, if it records one. */
  function RecordedOutcome(b: Book, g: Trigger): Option<Outcome> {
    match Decide(b, g)
    case Ran => if g.run.Returns? then Some(g.run.value) else None
    case Refused(o) => Some(o)
    case _ => None
  }

  /** The trigger gets as far as the due check, which inserts the task's entry. */
  predicate ReachesDueCheck(g: Trigger) {
    && !g.force && GetTask(g.config, g.task).Some?
    && (GetTask(g.config, g.task).value.enabled
        || (g.task in g.registered && !g.headless && Yes(g.runDisabled)))
  }

  predicate Completing(o: Outcome) {
    o.status == SUCCESS || o.status == PARTIAL || (o.status == SKIPPED && o.skipReason == Some(NO_WORK_NEEDED))
  }

  predicate Disabling(o: Outcome) {
    o.status == SKIPPED && o.skipReason == Some(DISABLED)
  }

  /** The stored due date after an outcome. */
  function NextDue(r: Record, o: Outcome, frequency: int, now: int): Option<int> {
    if Completing(o) then Some(now + frequency * DAY)
    else if Disabling(o) then None
    else r.nextDue
  }

  function AfterRecord(r: Record, g: Trigger, o: Outcome, frequency: int): Record {
    Recorded(r, o.status, NextDue(r, o, frequency, g.dueFrom), o.error, o.skipReason, g.recordedAt)
  }

  /** The record as the run itself leaves it: only a news prompt can touch it. */
  function Noted(r: Record, g: Trigger): Record {
    if g.prompted.Some? then r.(lastNewsPrompt := g.prompted) else r
  }

  function After(b: Book, g: Trigger): Book {
    var o := RecordedOutcome(b, g);
    if o.None? then (if ReachesDueCheck(g) then Touched(b, g.task) else b)
    else
      var r := if Decide(b, g).Ran? then Noted(Entry(b, g.task), g) else Entry(b, g.task);
      var seen := if Decide(b, g).Ran? then Visited(b, g.visited) else b;
      seen[g.task := AfterRecord(r, g, o.value, GetTask(g.config, g.task).value.frequency)]
  }

  /** Recording over a lazily inserted entry is recording over none. */
  lemma Overwrites(b: Book, name: string)
    ensures forall r: Record {:trigger b[name := r]} :: Touched(b, name)[name := r] == b[name := r]
    ensures Entry(Touched(b, name), name) == Entry(b, name)
  {
  }

  class TaskExecutor {
    const state: AppState

    constructor (state: AppState)
      ensures this.state == state
    {
      this.state := state;
    }

    /** Looks the task's class up; an unregistered name raises. */
    method CreateTask(g: Trigger) returns (r: Reply<()>)
      ensures r.Returns? <==> g.task in g.registered
    {
      r := if g.task in g.registered then Returns(()) else Raises("task not registered");
    }

    method ExecuteTask(g: Trigger) returns (r: Reply<Outcome>)
      requires state.Valid()
      modifies state.Repr()
      ensures state.Valid() && fresh(state.Repr() - old(state.Repr()))
      ensures state.Value() == After(old(state.Value()), g)
      ensures r.Returns? <==> RecordedOutcome(old(state.Value()), g).Some?
      ensures r.Returns? ==> RecordedOutcome(old(state.Value()), g) == Some(r.value)
    {
      hide AppState.Value, AppState.Valid, Due, NextDue, Recorded;
      var task := GetTask(g.config, g.task);
      if task.None? { return Raises("unknown task"); }
      NameFound(g.config, g.task);
      Overwrites(state.Value(), g.task);
      var refused := Screen(g, task.value);
      if refused.Raises? { return Raises(refused.error); }
      if refused.value.Some? {
        UpdateState(task.value, refused.value.value, g);
        return Returns(refused.value.value);
      }
      r := RunTask(g, task.value);
    }

    /** The two reasons not to run: `None` lets the trigger run the task. */
    method Screen(g: Trigger, task: TaskConfig) returns (r: Reply<Option<Outcome>>)
      requires state.Valid() && GetTask(g.config, g.task) == Some(task)
      modifies state
      ensures state.Valid() && fresh(state.Repr() - old(state.Repr()))
      ensures state.Value() == if ReachesDueCheck(g) then Touched(old(state.Value()), g.task) else old(state.Value())
      ensures var d := Decide(old(state.Value()), g);
              && (r.Raises? ==> d.Unregistered? || d.Aborted?)
              && (r.Returns? && r.value.Some? ==> d == Refused(r.value.value))
              && (r == Returns(None) ==> d == if g.task in g.registered then Ran else Unregistered)
    {
      hide AppState.Value, AppState.Valid, Due;
      if g.force { return Returns(None); }
      r := HandleDisabledTask(g, task);
      if r != Returns(None) { return; }
      r := HandleDueTask(g, task);
    }

    /** Creates the task, runs it, and records how it ended. */
    method RunTask(g: Trigger, task: TaskConfig) returns (r: Reply<Outcome>)
      requires state.Valid() && task.name == g.task
      modifies state.Repr()
      ensures state.Valid() && fresh(state.Repr() - old(state.Repr()))
      ensures g.task in g.registered && g.run.Returns? ==>
                && r == g.run
                && state.Value() == Visited(old(state.Value()), g.visited)[g.task :=
                     AfterRecord(Noted(Entry(old(state.Value()), g.task), g), g, g.run.value, task.frequency)]
      ensures g.task !in g.registered || g.run.Raises? ==> r.Raises? && state.Value() == old(state.Value())
    {
      hide AppState.Value, AppState.Valid, AfterRecord, Visited;
      var created := CreateTask(g);
      if created.Raises? { return Raises(created.error); }
      if g.run.Raises? { return Raises(g.run.error); }
      VisitOneMore(state.Value(), g.visited, g.task);
      Visit(g.visited);
      if g.prompted.Some? {
        state.SetTaskNewsPrompt(g.task, g.prompted.value);
      }
      UpdateState(task, g.run.value, g);
      return g.run;
    }

    /** The lookups a run makes on the shared state. */
    method Visit(names: set<string>)
      requires state.Valid()
      modifies state
      ensures state.Valid() && fresh(state.Repr() - old(state.Repr()))
      ensures state.Value() == Visited(old(state.Value()), names)
    {
      hide AppState.Value, AppState.Valid, Visited, Touched;
      ghost var b, done := state.Value(), {};
      VisitOneMore(b, {}, "");
      var rest := names;
      while rest != {}
        invariant state.Valid() && fresh(state.Repr() - old(state.Repr()))
        invariant rest !! done && rest + done == names && state.Value() == Visited(b, done)
        decreases rest
      {
        var n :| n in rest;
        VisitOneMore(b, done, n);
        var s := state.GetTaskState(n);
        rest, done := rest - {n}, done + {n};
      }
    }

    method HandleDisabledTask(g: Trigger, task: TaskConfig) returns (r: Reply<Option<Outcome>>)
      ensures r == Returns(None) <==>
                task.enabled || (g.task in g.registered && !g.headless && Yes(g.runDisabled))
      ensures r.Raises? <==>
                !task.enabled && (g.task !in g.registered || (!g.headless && g.runDisabled.Raises?))
      ensures r.Returns? && r.value.Some? ==> r.value.value == if g.headless then DISABLED_SKIP else CANCELLED_SKIP
    {
      if task.enabled { return Returns(None); }
      var created := CreateTask(g);
      if created.Raises? { return Raises(created.error); }
      if g.headless { return Returns(Some(DISABLED_SKIP)); }
      if g.runDisabled.Raises? { return Raises(g.runDisabled.error); }
      return Returns(if !g.runDisabled.value then Some(CANCELLED_SKIP) else None);
    }

    method HandleDueTask(g: Trigger, task: TaskConfig) returns (r: Reply<Option<Outcome>>)
      requires state.Valid() && GetTask(g.config, g.task) == Some(task)
      modifies state
      ensures state.Valid() && fresh(state.Repr() - old(state.Repr()))
      ensures state.Value() == Touched(old(state.Value()), g.task)
      ensures var due := Due(Entry(old(state.Value()), g.task), task.frequency, g.checkedAt);
              && (r == Returns(None) <==> due || (g.task in g.registered && !g.headless && Yes(g.runEarly)))
              && (r.Raises? <==> !due && (g.task !in g.registered || (!g.headless && g.runEarly.Raises?)))
              && (r.Returns? && r.value.Some? ==> r.value.value == if g.headless then NOT_DUE_SKIP else CANCELLED_SKIP)
    {
      hide InfoOf, Due, AppState.Value, AppState.Valid, Touched;
      var scheduler := new TaskScheduler(g.config, state);
      ghost var rec := Entry(state.Value(), g.task);
      var info := scheduler.GetScheduleInfo(g.task, g.checkedAt);
      InfoMeaning(task, rec, g.checkedAt);
      if info.value.isDue { return Returns(None); }
      var created := CreateTask(g);
      if created.Raises? { return Raises(created.error); }
      if g.headless { return Returns(Some(NOT_DUE_SKIP)); }
      if g.runEarly.Raises? { return Raises(g.runEarly.error); }
      return Returns(if !g.runEarly.value then Some(CANCELLED_SKIP) else None);
    }

    method UpdateState(task: TaskConfig, o: Outcome, g: Trigger)
      requires state.Valid() && task.name == g.task
      modifies state.Repr()
      ensures state.Valid() && fresh(state.Repr() - old(state.Repr()))
      ensures state.Value() ==
              old(state.Value())[g.task := AfterRecord(Entry(old(state.Value()), g.task), g, o, task.frequency)]
    {
      var nextDue := CalculateNextDue(task, o, g.dueFrom);
      state.UpdateTaskState(task.name, o.status, nextDue, o.error, o.skipReason, g.recordedAt);
    }

    method CalculateNextDue(task: TaskConfig, o: Outcome, now: int) returns (due: Option<int>)
      requires state.Valid()
      modifies state
      ensures state.Valid() && fresh(state.Repr() - old(state.Repr()))
      ensures state.Value() == old(state.Value()) || state.Value() == Touched(old(state.Value()), task.name)
      ensures due == NextDue(Entry(old(state.Value()), task.name), o, task.frequency, now)
    {
      match o.status {
        case SKIPPED =>
          match o.skipReason {
            case Some(DISABLED) => due := None;
            case Some(NO_WORK_NEEDED) => due := Some(now + task.frequency * DAY);
            case _ =>
              var s := state.GetTaskState(task.name);
              assert s.Value() == state.Value()[task.name];
              due := s.nextDue;
          }
        case FAILURE =>
          var s := state.GetTaskState(task.name);
          assert s.Value() == state.Value()[task.name];
          due := s.nextDue;
        case _ => due := Some(now + task.frequency * DAY);
      }
    }
  }
}
