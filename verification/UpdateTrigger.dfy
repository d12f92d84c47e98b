/** A trigger of the system update: the executor's screening around a run of the
    real task, on the shared state book. */
module UpdateTrigger {
  import opened Std
  import opened Models
  import opened Progress
  import opened BaseTask
  import opened Executor
  import opened Scheduler
  import opened SystemUpdate
  import Script = UpdateScript
  import Props = UpdateProperties

  /** The scenario of a run on this book: it starts from the recorded prompt. */
  function Scene(b: Book, x: Script.Scenario): Script.Scenario {
    x.(start := x.start.(lastPrompt := Entry(b, Script.NAME).lastNewsPrompt), hasState := true)
  }

  function OutcomeOf(r: TaskResult<Script.Details>): Outcome {
    Outcome(r.status, r.skipReason, r.error)
  }

  /** The moment a run writes into the shared state for its news question. */
  function PromptTime(x: Script.Scenario): Option<int> {
    if Props.Asked(x) && x.f.answer.Returns? then Some(x.f.answeredAt) else None
  }

  function WithPrompt(b: Book, name: string, prompted: Option<int>): Book {
    if prompted.Some? then b[name := Entry(b, name).(lastNewsPrompt := prompted)] else b
  }

  /** The trigger, with the run's outcome and prompt time worked out from what the
      run meets. */
  function Filled(g: Trigger, x: Script.Scenario, logging: Reply<()>): Trigger {
    if logging.Raises? then g.(run := Raises(logging.error), prompted := None, visited := {})
    else g.(run := Returns(OutcomeOf(Result(Script.HooksOf(x)))), prompted := PromptTime(x),
                visited := {})
  }

  /** What the screening decides does not depend on how the run would end. */
  lemma DecideFilled(b: Book, g: Trigger, x: Script.Scenario, logging: Reply<()>)
    ensures Decide(b, Filled(g, x, logging)) == Decide(b, g)
    ensures ReachesDueCheck(Filled(g, x, logging)) == ReachesDueCheck(g)
  {
    hide Due, Script.HooksOf, Result, PromptTime;
  }

  /** A trigger that does not run records its refusal, if it is one. */
  lemma NotRun(b: Book, g: Trigger, x: Script.Scenario, logging: Reply<()>)
    requires !Decide(b, g).Ran?
    ensures var t := Filled(g, x, logging);
            if Decide(b, g).Refused? then
              && RecordedOutcome(b, t) == Some(Decide(b, g).outcome)
              && GetTask(g.config, g.task).Some?
              && After(b, t) == b[g.task := AfterRecord(Entry(b, g.task), g, Decide(b, g).outcome,
                                                        GetTask(g.config, g.task).value.frequency)]
            else
              && RecordedOutcome(b, t) == None
              && After(b, t) == if ReachesDueCheck(g) then Touched(b, g.task) else b
  {
    DecideFilled(b, g, x, logging);
    hide Due, Script.HooksOf, Result, PromptTime;
  }

  lemma RunRecords(b: Book, g: Trigger, x: Script.Scenario, logging: Reply<()>)
    requires Decide(b, g).Ran?
    ensures var t := Filled(g, x, logging);
            if logging.Raises? then
              && RecordedOutcome(b, t) == None
              && After(b, t) == if ReachesDueCheck(g) then Touched(b, g.task) else b
            else
              var o := OutcomeOf(Result(Script.HooksOf(x)));
              && RecordedOutcome(b, t) == Some(o)
              && GetTask(g.config, g.task).Some?
              && After(b, t) == b[g.task := AfterRecord(Entry(WithPrompt(b, g.task, PromptTime(x)), g.task), g, o,
                                                        GetTask(g.config, g.task).value.frequency)]
  {
    DecideFilled(b, g, x, logging);
    hide Due, Script.HooksOf, Result, PromptTime;
  }

  class UpdateTrigger {
    const executor: TaskExecutor
    const settings: Script.Settings
    const progress: RichProgress
    const host: Host

    constructor (executor: TaskExecutor, settings: Script.Settings, progress: RichProgress, host: Host)
      ensures this.executor == executor && this.settings == settings
      ensures this.progress == progress && this.host == host
    {
      this.executor, this.settings, this.progress, this.host := executor, settings, progress, host;
    }

    /** A run of a freshly created task: its host and display, no cached list, no
        backup, and a notifier (the executor always resolves one). */
    ghost predicate Fresh(x: Script.Scenario, f: Script.Faults)
      reads host, progress
    {
      && x.f == f && x.settings == settings && x.hasNotifier
      && x.start.sync == host.sync && x.start.backup == None && x.pending == None && x.snapshotBefore == None
      && x.shown == Shown(progress.live, progress.taskId.Some?)
    }

    /** A fresh task on this entry, run once. */
    method RunOn(entry: TaskState, f: Script.Faults, logging: Reply<()>, startedAt: int, endedAt: int,
                 ghost x: Script.Scenario) returns (r: Reply<TaskResult<Script.Details>>)
      requires progress.Valid() && Fresh(x, f) && x.hasState && x.start.lastPrompt == entry.lastNewsPrompt
      modifies entry`lastNewsPrompt, host, progress
      ensures progress.Valid()
      ensures logging.Raises? ==>
                r.Raises? && host.log == old(host.log) && entry.lastNewsPrompt == old(entry.lastNewsPrompt)
      ensures logging.Returns? ==>
                && r == Returns(Result(Script.HooksOf(x)).(duration := endedAt - startedAt))
                && host.log == old(host.log) + Props.RunLog(x)
                && entry.lastNewsPrompt == if PromptTime(x).Some? then PromptTime(x) else old(entry.lastNewsPrompt)
    {
      hide Script.Walk, Script.Replay, Script.HooksOf, Script.Seen, Result, Trace, Props.Asked;
      var task := new SystemUpdateTask(settings, progress, host, entry, true, None);
      r := task.Run(f, logging, startedAt, endedAt, x);
      if logging.Returns? { Props.NewsPrompt(x); }
    }

    /** A run on the book `b` gave `r`, and left its log and its prompt time. */
    ghost predicate Left(x: Script.Scenario, logging: Reply<()>, r: Reply<TaskResult<Script.Details>>, duration: int,
                         b: Book, log0: seq<LogEntry<Script.Call>>)
      reads executor.state.Repr(), host
    {
      if logging.Raises? then r.Raises? && host.log == log0 && executor.state.Value() == b
      else
        && r == Returns(Result(Script.HooksOf(x)).(duration := duration))
        && host.log == log0 + Props.RunLog(x)
        && executor.state.Value() == WithPrompt(b, Script.NAME, PromptTime(x))
    }

    lemma EntryFound()
      requires Script.NAME in executor.state.tasks
      ensures Entry(executor.state.Value(), Script.NAME) == executor.state.tasks[Script.NAME].Value()
    {
    }

    /** A run with the entry that the book has. */
    method RunWithEntry(f: Script.Faults, logging: Reply<()>, startedAt: int, endedAt: int, ghost x: Script.Scenario)
      returns (r: Reply<TaskResult<Script.Details>>)
      requires executor.state.Valid() && progress.Valid() && Fresh(x, f) && x.hasState && Script.NAME in executor.state.tasks
      requires x.start.lastPrompt == Entry(executor.state.Value(), Script.NAME).lastNewsPrompt
      modifies executor.state.Repr(), host, progress
      ensures executor.state.Valid() && progress.Valid()
      ensures fresh(executor.state.Repr() - old(executor.state.Repr()))
      ensures Left(x, logging, r, endedAt - startedAt, old(executor.state.Value()), old(host.log))
    {
      hide Script.HooksOf, Result, PromptTime, Props.RunLog;
      var entry := executor.state.tasks[Script.NAME];
      EntryFound();
      hide Fresh;
      r := RunOn(entry, f, logging, startedAt, endedAt, x);
    }

    /** A run on an entry beside the book, which gives the prompt time it wrote. */
    method RunAside(f: Script.Faults, logging: Reply<()>, startedAt: int, endedAt: int, ghost x: Script.Scenario)
      returns (r: Reply<TaskResult<Script.Details>>, prompted: Option<int>)
      requires progress.Valid() && Fresh(x, f) && x.hasState && x.start.lastPrompt == None
      modifies host, progress
      ensures progress.Valid()
      ensures logging.Raises? ==> r.Raises? && host.log == old(host.log) && prompted == None
      ensures logging.Returns? ==>
                && r == Returns(Result(Script.HooksOf(x)).(duration := endedAt - startedAt))
                && host.log == old(host.log) + Props.RunLog(x) && prompted == PromptTime(x)
    {
      hide Script.HooksOf, Result, PromptTime, Props.RunLog;
      var entry := new TaskState();
      assert entry.Value() == FRESH;
      r := RunOn(entry, f, logging, startedAt, endedAt, x);
      prompted := entry.lastNewsPrompt;
    }

    method Attach(prompted: Option<int>)
      requires executor.state.Valid()
      modifies executor.state.Repr()
      ensures executor.state.Valid() && fresh(executor.state.Repr() - old(executor.state.Repr()))
      ensures executor.state.Value() == WithPrompt(old(executor.state.Value()), Script.NAME, prompted)
      ensures prompted == None ==> executor.state.Value() == old(executor.state.Value())
    {
      hide AppState.Value, AppState.Valid;
      if prompted.Some? {
        executor.state.SetTaskNewsPrompt(Script.NAME, prompted.value);
      }
    }

    lemma NoEntryYet()
      requires Script.NAME !in executor.state.tasks
      ensures Entry(executor.state.Value(), Script.NAME) == FRESH
    {
    }

    /** A run of a task the book does not know yet: the entry enters the book with
        its first prompt time. */
    method RunWithoutEntry(f: Script.Faults, logging: Reply<()>, startedAt: int, endedAt: int, ghost x: Script.Scenario)
      returns (r: Reply<TaskResult<Script.Details>>)
      requires executor.state.Valid() && progress.Valid() && Fresh(x, f) && x.hasState
      requires Script.NAME !in executor.state.tasks
      requires x.start.lastPrompt == Entry(executor.state.Value(), Script.NAME).lastNewsPrompt
      modifies executor.state.Repr(), host, progress
      ensures executor.state.Valid() && progress.Valid()
      ensures fresh(executor.state.Repr() - old(executor.state.Repr()))
      ensures Left(x, logging, r, endedAt - startedAt, old(executor.state.Value()), old(host.log))
    {
      hide Script.HooksOf, Result, PromptTime, Props.RunLog, AppState.Valid;
      NoEntryYet();
      hide AppState.Value, TaskState.Value, Fresh, WithPrompt;
      var prompted;
      r, prompted := RunAside(f, logging, startedAt, endedAt, x);
      assert executor.state.Value() == old(executor.state.Value()) && executor.state.Valid();
      Attach(prompted);
      hide AppState.Repr;
    }

    method Run(f: Script.Faults, logging: Reply<()>, startedAt: int, endedAt: int, ghost x: Script.Scenario)
      returns (r: Reply<TaskResult<Script.Details>>)
      requires executor.state.Valid() && progress.Valid() && Fresh(x, f) && x.hasState
      requires x.start.lastPrompt == Entry(executor.state.Value(), Script.NAME).lastNewsPrompt
      modifies executor.state.Repr(), host, progress
      ensures executor.state.Valid() && progress.Valid()
      ensures fresh(executor.state.Repr() - old(executor.state.Repr()))
      ensures Left(x, logging, r, endedAt - startedAt, old(executor.state.Value()), old(host.log))
    {
      if Script.NAME in executor.state.tasks {
        r := RunWithEntry(f, logging, startedAt, endedAt, x);
      } else {
        r := RunWithoutEntry(f, logging, startedAt, endedAt, x);
      }
    }

    /** `execute_task("system-update")`: the same decisions as for any task, and if
        it runs, the run's own calls, outcome and prompt time. */
    method Execute(g: Trigger, f: Script.Faults, logging: Reply<()>, startedAt: int, endedAt: int,
                   ghost x: Script.Scenario) returns (r: Reply<Outcome>)
      requires executor.state.Valid() && progress.Valid() && g.task == Script.NAME && Fresh(x, f)
      modifies executor.state.Repr(), host, progress
      ensures executor.state.Valid() && progress.Valid()
      ensures var b := old(executor.state.Value());
              var t := Filled(g, Scene(b, x), logging);
              && executor.state.Value() == After(b, t)
              && (r.Returns? <==> RecordedOutcome(b, t).Some?)
              && (r.Returns? ==> RecordedOutcome(b, t) == Some(r.value))
              && host.log == old(host.log) + (if Decide(b, g).Ran? && logging.Returns? then Props.RunLog(Scene(b, x)) else [])
    {
      hide AppState.Value, AppState.Valid, Decide, After, RecordedOutcome, Filled, Touched, AfterRecord, PromptTime,
           Script.HooksOf, Result, Props.RunLog, ReachesDueCheck;
      ghost var b := executor.state.Value();
      ghost var y := Scene(b, x);
      Overwrites(b, g.task);
      if Decide(b, g).Ran? { RunRecords(b, g, y, logging); } else { NotRun(b, g, y, logging); }
      var task := GetTask(g.config, g.task);
      if task.None? {
        UnknownTask(b, g);
        return Raises("unknown task");
      }
      NameFound(g.config, g.task);
      var refused := executor.Screen(g, task.value);
      if refused.Raises? { return Raises(refused.error); }
      if refused.value.Some? {
        executor.UpdateState(task.value, refused.value.value, g);
        return Returns(refused.value.value);
      }
      r := RunAndRecord(g, task.value, f, logging, startedAt, endedAt, y);
    }

    /** Creates the task, runs it, and records how it ended. */
    method RunAndRecord(g: Trigger, task: TaskConfig, f: Script.Faults, logging: Reply<()>, startedAt: int, endedAt: int,
                        ghost x: Script.Scenario) returns (r: Reply<Outcome>)
      requires executor.state.Valid() && progress.Valid() && Fresh(x, f) && x.hasState
      requires g.task == task.name == Script.NAME
      requires x.start.lastPrompt == Entry(executor.state.Value(), Script.NAME).lastNewsPrompt
      modifies executor.state.Repr(), host, progress
      ensures executor.state.Valid() && progress.Valid()
      ensures g.task !in g.registered || logging.Raises? ==>
                r.Raises? && host.log == old(host.log) && executor.state.Value() == old(executor.state.Value())
      ensures g.task in g.registered && logging.Returns? ==>
                && r == Returns(OutcomeOf(Result(Script.HooksOf(x))))
                && host.log == old(host.log) + Props.RunLog(x)
                && executor.state.Value() == old(executor.state.Value())[g.task :=
                     AfterRecord(Entry(WithPrompt(old(executor.state.Value()), g.task, PromptTime(x)), g.task), g,
                                 OutcomeOf(Result(Script.HooksOf(x))), task.frequency)]
    {
      hide AppState.Value, AppState.Valid, AfterRecord, PromptTime, Script.HooksOf, Result, Props.RunLog, Fresh;
      var created := executor.CreateTask(g);
      if created.Raises? { return Raises(created.error); }
      var result := Run(f, logging, startedAt, endedAt, x);
      if result.Raises? { return Raises(result.error); }
      var o := OutcomeOf(result.value);
      executor.UpdateState(task, o, g);
      r := Returns(o);
    }
  }

  lemma UnknownTask(b: Book, g: Trigger)
    requires GetTask(g.config, g.task).None?
    ensures Decide(b, g).Unknown? && !ReachesDueCheck(g)
  {
  }
}
