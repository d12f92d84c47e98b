/** What a single trigger comes to and what it leaves in the state book, case by
    case, from the trigger and the record it meets. */
module TriggerOutcome {
  import opened Std
  import opened Models
  import opened Scheduler
  import opened Executor

  /** The trigger names a task of the configuration whose class is registered. */
  predicate Known(g: Trigger) {
    GetTask(g.config, g.task).Some? && g.task in g.registered
  }

  predicate Enabled(g: Trigger) {
    GetTask(g.config, g.task).Some? && GetTask(g.config, g.task).value.enabled
  }

  function Frequency(g: Trigger): int {
    if GetTask(g.config, g.task).Some? then GetTask(g.config, g.task).value.frequency else 0
  }

  /** Never run, or at its date: the stored one, or else one frequency past the
      last run. */
  predicate IsDue(b: Book, g: Trigger) {
    var r := Entry(b, g.task);
    || r.lastRun.None?
    || (r.nextDue.Some? && r.nextDue.value <= g.checkedAt)
    || (r.nextDue.None? && r.lastRun.value + Frequency(g) * DAY <= g.checkedAt)
  }

  /** A trigger runs its task iff the task is known, and it is forced or each of
      the two objections, disabled and not due, is absent or overruled by the
      user. */
  lemma RunsIff(b: Book, g: Trigger)
    ensures Decide(b, g).Ran? <==>
              && Known(g)
              && (g.force
                  || ((Enabled(g) || (!g.headless && Yes(g.runDisabled)))
                      && (IsDue(b, g) || (!g.headless && Yes(g.runEarly)))))
  {
  }

  /** The question about a disabled task is put and answered no. */
  predicate DeclinesDisabled(g: Trigger) {
    Known(g) && !g.force && !Enabled(g) && !g.headless && No(g.runDisabled)
  }

  /** The question about a task that is not due is put and answered no. */
  predicate DeclinesEarly(b: Book, g: Trigger) {
    && Known(g) && !g.force && !g.headless && (Enabled(g) || Yes(g.runDisabled))
    && !IsDue(b, g) && No(g.runEarly)
  }

  predicate RefusedDisabled(g: Trigger) {
    Known(g) && !g.force && !Enabled(g) && g.headless
  }

  predicate RefusedEarly(b: Book, g: Trigger) {
    Known(g) && !g.force && Enabled(g) && g.headless && !IsDue(b, g)
  }

  /** The record `r`, with an outcome recorded over it. */
  predicate Skipped(r: Record, r': Record, reason: SkipReason, nextDue: Option<int>, at: int) {
    && r'.lastStatus == Some(SKIPPED) && r'.skipReason == Some(reason) && r'.lastError == None
    && r'.nextDue == nextDue && r'.lastRun == Some(at)
    && r'.runCount == r.runCount + 1 && r'.lastNewsPrompt == r.lastNewsPrompt
  }

  /** What each refusal leaves in the task's record. A declined question keeps the
      stored date, and so does a headless "not due"; a headless "disabled" drops
      it. */
  lemma RefusalLeaves(b: Book, g: Trigger)
    ensures var r, r' := Entry(b, g.task), Entry(After(b, g), g.task);
            && (DeclinesDisabled(g) || DeclinesEarly(b, g) ==> Skipped(r, r', USER_CANCELLED, r.nextDue, g.recordedAt))
            && (RefusedDisabled(g) ==> Skipped(r, r', DISABLED, None, g.recordedAt))
            && (RefusedEarly(b, g) ==> Skipped(r, r', NOT_DUE, r.nextDue, g.recordedAt))
  {
  }

  /** What a run leaves in the task's record: how it ended, and a new date iff it
      succeeded, at least in part, or found nothing to do. A failure keeps the
      stored date, and so does every skip but the one for a disabled task. */
  lemma RunLeaves(b: Book, g: Trigger)
    requires Decide(b, g).Ran? && g.run.Returns?
    ensures var r, r', o := Entry(b, g.task), Entry(After(b, g), g.task), g.run.value;
            && r'.lastStatus == Some(o.status) && r'.skipReason == o.skipReason && r'.lastError == o.error
            && r'.lastRun == Some(g.recordedAt) && r'.runCount == r.runCount + 1
            && r'.lastNewsPrompt == (if g.prompted.Some? then g.prompted else r.lastNewsPrompt)
            && r'.nextDue == match o.status
                             case SUCCESS => Some(g.dueFrom + Frequency(g) * DAY)
                             case PARTIAL => Some(g.dueFrom + Frequency(g) * DAY)
                             case FAILURE => r.nextDue
                             case SKIPPED =>
                               if o.skipReason == Some(NO_WORK_NEEDED) then Some(g.dueFrom + Frequency(g) * DAY)
                               else if o.skipReason == Some(DISABLED) then None
                               else r.nextDue
  {
  }

  /** Every other trigger raises and records nothing: the task is unknown, a
      question raises, or the run does, before it starts. */
  lemma RaisesIff(b: Book, g: Trigger)
    ensures RecordedOutcome(b, g).None? <==>
              || !Known(g)
              || (Decide(b, g).Ran? && g.run.Raises?)
              || (!g.force && !g.headless && !Enabled(g) && g.runDisabled.Raises?)
              || (!g.force && !g.headless && (Enabled(g) || Yes(g.runDisabled)) && !IsDue(b, g) && g.runEarly.Raises?)
    ensures RecordedOutcome(b, g).None? ==> Entry(After(b, g), g.task) == Entry(b, g.task)
  {
  }

  /** These are all the cases. */
  lemma EveryTrigger(b: Book, g: Trigger)
    ensures RecordedOutcome(b, g).Some? <==>
              || DeclinesDisabled(g) || DeclinesEarly(b, g) || RefusedDisabled(g) || RefusedEarly(b, g)
              || (Decide(b, g).Ran? && g.run.Returns?)
  {
  }
}
