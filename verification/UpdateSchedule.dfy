/** What a system update that really runs leaves in the schedule. */
module UpdateSchedule {
  import opened Std
  import opened Models
  import opened BaseTask
  import opened Executor
  import opened TriggerOutcome
  import opened UpdateTrigger
  import Script = UpdateScript
  import Table = UpdateOutcome

  /** The result that the table of results gives a run on this book. */
  function Told(b: Book, x: Script.Scenario): TaskResult<Script.Details> {
    var gate := Table.GateResult(Scene(b, x));
    if gate.Some? then gate.value else Table.WorkResult(Scene(b, x))
  }

  /** The run's own status, skip reason and error enter the book. The update is
      next due one frequency later iff packages were upgraded or there were too
      few of them; every failure, and every other skip, keeps the date. */
  lemma UpdateLeaves(b: Book, g: Trigger, x: Script.Scenario)
    requires Decide(b, g).Ran? && g.task == Script.NAME
    ensures var told, r := Told(b, x), Entry(b, g.task);
            var r' := Entry(After(b, Filled(g, Scene(b, x), Returns(()))), g.task);
            && r'.lastStatus == Some(told.status) && r'.skipReason == told.skipReason && r'.lastError == told.error
            && r'.lastRun == Some(g.recordedAt) && r'.runCount == r.runCount + 1
            && r'.nextDue == if told.status == SUCCESS || told.status == PARTIAL
                                || (told.status == SKIPPED && told.skipReason == Some(NO_WORK_NEEDED))
                             then Some(g.dueFrom + Frequency(g) * DAY) else r.nextDue
  {
    hide Script.HooksOf, Result, PromptTime, Decide, After, Table.GateResult, Table.WorkResult;
    var y := Scene(b, x);
    DecideFilled(b, g, y, Returns(()));
    Table.EveryResult(y);
    NeverDisabled(y);
    RunLeaves(b, Filled(g, y, Returns(())));
  }

  lemma NeverDisabled(x: Script.Scenario)
    ensures Result(Script.HooksOf(x)).skipReason != Some(DISABLED)
  {
    hide Script.HooksOf, Result;
    Table.SkipReasonIff(x);
  }
}
