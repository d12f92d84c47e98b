/** What the run logs of the system-update task guarantee, for every reply of
    the outside world. */
module UpdateProperties {
  import opened Std
  import opened Models
  import opened Progress
  import opened BaseTask
  import opened UpdateScript

  type Log = seq<LogEntry<Call>>

  const QUERIES := [CheckUpdates, AurQuery, ManifestBefore]

  const AFTER_PACMAN :=
    [SnapshotProbe, SnapperList, ParuUpgrade, ManifestAfter, ManifestDiff, PacnewList, RecordWrite]

  predicate Made(log: Log, c: Call) {
    LogEntry.Call(c, true) in log || LogEntry.Call(c, false) in log
  }

  // ----- scripts -----

  lemma {:induction false} WalkSplit(a: seq<Call>, b: seq<Call>, x: Scenario)
    ensures Walk(a + b, x) ==
            if Walk(a, x).end == Go then Walked(Walk(a, x).calls + Walk(b, x).calls, Walk(b, x).end)
            else Walk(a, x)
  {
    if a == [] {
      assert a + b == b && [] + Walk(b, x).calls == Walk(b, x).calls;
    } else {
      assert (a + b)[1..] == a[1..] + b;
      WalkSplit(a[1..], b, x);
    }
  }

  lemma {:induction false} WalkWithin(script: seq<Call>, x: Scenario)
    ensures forall c <- Walk(script, x).calls :: c in script && Applies(c, x)
  {
    if script != [] {
      WalkWithin(script[1..], x);
    }
  }

  lemma MadeSeen(calls: seq<Call>, c: Call, s: Shown)
    ensures Made(Seen(calls, s), c) <==> c in calls
    ensures forall l :: LogEntry.Call(c, l) in Seen(calls, s) ==> l == LiveDuring(c, s)
  {
    if c in calls {
      var i :| 0 <= i < |calls| && calls[i] == c;
      assert Seen(calls, s)[i] == LogEntry.Call(c, LiveDuring(c, s));
    }
  }

  /** The shape of an upgrade: queries, then the backup, then pacman, then the
      rest, each only when all before it went through. */
  lemma ExecShape(x: Scenario)
    ensures var w, q, t := Walk(UPGRADE, x), Walk(QUERIES, x), Walk(AFTER_PACMAN, x);
            if q.end != Go then w == q
            else if Judge(SyncBackup, x) != Go then w == Walked(q.calls + [SyncBackup], Judge(SyncBackup, x))
            else if Judge(PacmanUpgrade, x) != Go then
              w == Walked(q.calls + [SyncBackup, PacmanUpgrade], Judge(PacmanUpgrade, x))
            else w == Walked(q.calls + [SyncBackup, PacmanUpgrade] + t.calls, t.end)
  {
    var q, t := Walk(QUERIES, x), Walk(AFTER_PACMAN, x);
    var rest := [SyncBackup, PacmanUpgrade] + AFTER_PACMAN;
    assert UPGRADE == QUERIES + rest;
    WalkSplit(QUERIES, rest, x);
    TransactionShape(x);
    hide Walk, Judge;
    assert q.calls + ([SyncBackup, PacmanUpgrade] + t.calls) == q.calls + [SyncBackup, PacmanUpgrade] + t.calls;
  }

  lemma TransactionShape(x: Scenario)
    ensures var w, t := Walk([SyncBackup, PacmanUpgrade] + AFTER_PACMAN, x), Walk(AFTER_PACMAN, x);
            if Judge(SyncBackup, x) != Go then w == Walked([SyncBackup], Judge(SyncBackup, x))
            else if Judge(PacmanUpgrade, x) != Go then
              w == Walked([SyncBackup, PacmanUpgrade], Judge(PacmanUpgrade, x))
            else w == Walked([SyncBackup, PacmanUpgrade] + t.calls, t.end)
  {
    hide Judge;
    var rest := [SyncBackup, PacmanUpgrade] + AFTER_PACMAN;
    assert rest[1..] == [PacmanUpgrade] + AFTER_PACMAN;
    assert rest[1..][1..] == AFTER_PACMAN;
  }

  // ----- what a log leaves alone -----

  predicate Lacks(log: Log, cs: set<Call>) {
    forall e <- log :: e.Call? ==> e.call !in cs
  }

  /** Only these calls write the live sync database, and only `SyncBackup` makes
      a backup. */
  const WRITERS: set<Call> := {PacmanUpgrade, ParuUpgrade, SyncRestore}

  lemma {:induction false} SyncUntouched(past: Log, log: Log, x: Scenario)
    requires Lacks(log, WRITERS)
    ensures Replay(past + log, x).sync == Replay(past, x).sync
  {
    if log == [] {
      assert past + log == past;
    } else {
      var init := log[..|log| - 1];
      assert past + log == past + init + [log[|log| - 1]];
      ReplaySnoc(past + init, log[|log| - 1], x);
      SyncUntouched(past, init, x);
    }
  }

  lemma {:induction false} BackupUntouched(past: Log, log: Log, x: Scenario)
    requires Lacks(log, {SyncBackup})
    ensures Replay(past + log, x).backup == Replay(past, x).backup
  {
    if log == [] {
      assert past + log == past;
    } else {
      var init := log[..|log| - 1];
      assert past + log == past + init + [log[|log| - 1]];
      ReplaySnoc(past + init, log[|log| - 1], x);
      BackupUntouched(past, init, x);
    }
  }

  lemma SeenLacks(calls: seq<Call>, cs: set<Call>, s: Shown)
    requires forall c <- calls :: c !in cs
    ensures Lacks(Seen(calls, s), cs)
  {
  }

  // ----- the anatomy of a run -----

  /** Both gates passed, so the upgrade was entered. */
  predicate Entered(x: Scenario) {
    Cleared(TriedHooks(x))
  }

  /** The queries of the upgrade went through and the backup copy succeeded. */
  predicate Secured(x: Scenario) {
    Entered(x) && Walk(QUERIES, Gated(x)).end == Go && x.f.backup == Copied
  }

  /** The log up to the point where pacman is about to start. */
  function BeforePacman(x: Scenario): Log {
    GateSegments(x) + [Hook(Execute)] + Seen(Walk(QUERIES, Gated(x)).calls + [SyncBackup], x.shown)
  }

  lemma GatesAreCalm(x: Scenario)
    ensures Lacks(GateSegments(x), WRITERS + {SyncBackup, Paccache, Notify})
  {
    hide Walk, Judge, Applies, Seen;
    WalkWithin(PRE_CHECK, x);
    WalkWithin(GateScript(x), x);
    SeenLacks(Walk(PRE_CHECK, x).calls, WRITERS + {SyncBackup, Paccache, Notify}, x.shown);
    SeenLacks(Walk(GateScript(x), x).calls, WRITERS + {SyncBackup, Paccache, Notify}, x.shown);
  }

  lemma QueriesAreCalm(x: Scenario)
    ensures Lacks(Seen(Walk(QUERIES, x).calls, x.shown), WRITERS + {SyncBackup, Paccache})
  {
    WalkWithin(QUERIES, x);
    SeenLacks(Walk(QUERIES, x).calls, WRITERS + {SyncBackup, Paccache}, x.shown);
  }

  lemma LacksMore(a: Log, b: Log, cs: set<Call>)
    requires Lacks(a, cs) && Lacks(b, cs)
    ensures Lacks(a + [Hook(Execute)] + b, cs)
  {
  }

  lemma Regrouped(a: Log, b: Log, c: Log)
    ensures a + (b + c) == a + b + c
  {
  }

  /** When pacman is about to start, the live database is still the pre-run one
      and the backup holds exactly it. */
  lemma WorldBeforePacman(x: Scenario)
    requires x.f.backup == Copied
    ensures Replay(BeforePacman(x), x).backup == Some(x.start.sync)
    ensures Replay(BeforePacman(x), x).sync == x.start.sync
  {
    hide Walk, Seen, Replay, GateSegments, Judge, Applies;
    var q := Walk(QUERIES, Gated(x)).calls;
    var pre := GateSegments(x) + [Hook(Execute)] + Seen(q, x.shown);
    SeenSnoc(q, SyncBackup, x.shown);
    Regrouped(GateSegments(x) + [Hook(Execute)], Seen(q, x.shown), [LogEntry.Call(SyncBackup, false)]);
    ReplaySnoc(pre, LogEntry.Call(SyncBackup, false), x);
    GatesAreCalm(x);
    QueriesAreCalm(Gated(x));
    LacksMore(GateSegments(x), Seen(q, x.shown), WRITERS);
    ReplayNothing(x);
    SyncUntouched([], pre, x);
    assert [] + pre == pre;
  }

  /** An upgrade that was cut short is followed by no cache pruning. */
  lemma CutShort(x: Scenario)
    requires Walk(UPGRADE, Gated(x)).end != Go
    ensures Lacks(Segment(TriedHooks(x), PostExecute), WRITERS + {SyncBackup, Paccache})
  {
    hide Walk, Judge, Seen;
    var reply := Cut(Walk(UPGRADE, Gated(x)).end);
    assert ExecHook(Gated(x)).reply == reply;
    if reply.Returns? {
      assert reply.value.status != SUCCESS;
      var calls := PostCalls(x, false);
      SeenLacks(calls, WRITERS + {SyncBackup, Paccache}, x.shown);
      assert PostHook(x, reply.value).calls == Seen(calls, x.shown);
    }
  }

  /** The follow-up of any upgrade writes no database. */
  lemma FollowUpIsCalm(x: Scenario)
    ensures Lacks(Segment(TriedHooks(x), PostExecute), WRITERS + {SyncBackup})
  {
    hide Walk, Judge, Seen;
    var reply := ExecHook(Gated(x)).reply;
    if reply.Returns? {
      var calls := PostCalls(x, reply.value.status == SUCCESS);
      SeenLacks(calls, WRITERS + {SyncBackup}, x.shown);
      assert PostHook(x, reply.value).calls == Seen(calls, x.shown);
    }
  }

  /** A run whose gates block never enters the upgrade. */
  lemma BlockedShape(x: Scenario)
    requires !Entered(x)
    ensures Tried(TriedHooks(x)) == GateSegments(x)
  {
  }

  /** What an entered run logs after its gates. */
  function Upgrade(x: Scenario): Log {
    Seen(Walk(UPGRADE, Gated(x)).calls, x.shown) + Segment(TriedHooks(x), PostExecute)
  }

  lemma EnteredShape(x: Scenario)
    requires Entered(x)
    ensures Tried(TriedHooks(x)) == GateSegments(x) + [Hook(Execute)] + Upgrade(x)
  {
    hide Walk, Judge, Seen;
  }

  /** An upgrade stopped before pacman: no database was written, and a backup
      was made only if the copy succeeded, which it then did not. */
  lemma UnsecuredShape(x: Scenario)
    requires Entered(x) && !Secured(x)
    ensures Lacks(Upgrade(x), WRITERS + {Paccache})
    ensures x.f.backup == Copied ==> Lacks(Upgrade(x), {SyncBackup})
  {
    hide Walk, Seen;
    var g := Gated(x);
    var q := Walk(QUERIES, g).calls;
    ExecShape(g);
    CutShort(x);
    QueriesAreCalm(g);
    SeenSnoc(q, SyncBackup, x.shown);
  }

  /** The calls of the upgrade behind pacman. */
  function BehindPacman(x: Scenario): seq<Call> {
    if Judge(PacmanUpgrade, x) == Go then Walk(AFTER_PACMAN, x).calls else []
  }

  /** A secured upgrade: pacman starts right after the backup, exactly once, and
      neither a second backup nor a restore follows inside the hooks. */
  lemma SecuredShape(x: Scenario) returns (rest: Log)
    requires Secured(x)
    ensures Tried(TriedHooks(x)) == BeforePacman(x) + [LogEntry.Call(PacmanUpgrade, false)] + rest
    ensures rest == Seen(BehindPacman(Gated(x)), x.shown) + Segment(TriedHooks(x), PostExecute)
    ensures Lacks(rest, {SyncBackup, PacmanUpgrade, SyncRestore})
  {
    hide Walk, Seen, TriedHooks, Segment;
    var g := Gated(x);
    var q, t := Walk(QUERIES, g).calls, BehindPacman(g);
    ExecShape(g);
    WalkWithin(AFTER_PACMAN, g);
    SeenLacks(t, {SyncBackup, PacmanUpgrade, SyncRestore}, x.shown);
    EnteredShape(x);
    FollowUpIsCalm(x);
    rest := Seen(t, x.shown) + Segment(TriedHooks(x), PostExecute);
    SecuredCalls(q, t, x.shown);
    assert Walk(UPGRADE, g).calls == q + [SyncBackup, PacmanUpgrade] + t;
    assert Upgrade(x) == Seen(q + [SyncBackup], x.shown) + [LogEntry.Call(PacmanUpgrade, false)] + rest;
  }

  lemma SecuredCalls(q: seq<Call>, t: seq<Call>, s: Shown)
    ensures Seen(q + [SyncBackup, PacmanUpgrade] + t, s)
            == Seen(q + [SyncBackup], s) + [LogEntry.Call(PacmanUpgrade, false)] + Seen(t, s)
  {
  }

  // ----- pacman only behind a backup -----

  function RunLog(x: Scenario): Log {
    Trace(HooksOf(x))
  }

  /** The part of the log after the tried hooks: the rescue and the close. */
  function Tail(x: Scenario): Log {
    Segment(HooksOf(x), Rollback) + [Closed]
  }

  lemma LogSplit(x: Scenario)
    ensures RunLog(x) == Tried(TriedHooks(x)) + Tail(x)
    ensures Tail(x) == (if Escaped(TriedHooks(x)).Some?
                        then [Hook(Rollback)] + RollbackHook(Replay(Tried(TriedHooks(x)), x)).calls else [])
                       + [Closed]
    ensures Lacks(Tail(x), {SyncBackup, PacmanUpgrade, ParuUpgrade, Paccache, Notify})
  {
    hide Walk, Judge, Replay, TriedHooks, HooksOf;
    SameTried(x);
    SeenRestore();
  }

  /** `pacman -Syu` starts in exactly the secured runs, once, and when it starts
      the backup exists and holds the pre-run sync database, still untouched. */
  lemma PacmanOnlyBehindBackup(x: Scenario, i: nat, live: bool)
    requires i < |RunLog(x)| && RunLog(x)[i] == LogEntry.Call(PacmanUpgrade, live)
    ensures Secured(x) && !live
    ensures Replay(RunLog(x)[..i], x).backup == Some(x.start.sync)
    ensures Replay(RunLog(x)[..i], x).sync == x.start.sync
    ensures exists j :: 0 <= j < i && RunLog(x)[j] == LogEntry.Call(SyncBackup, false)
  {
    hide Walk, Judge, Replay, TriedHooks, HooksOf, Segment, Secured, Entered, Seen, RunLog, BeforePacman;
    PacmanWhere(x, i, live);
    SecuredCopied(x);
    WorldBeforePacman(x);
    BeforePacmanIsCalm(x);
    assert RunLog(x)[..i][i - 1] == RunLog(x)[i - 1];
  }

  lemma PacmanWhere(x: Scenario, i: nat, live: bool)
    requires i < |RunLog(x)| && RunLog(x)[i] == LogEntry.Call(PacmanUpgrade, live)
    ensures Secured(x) && !live && RunLog(x)[..i] == BeforePacman(x)
  {
    hide Walk, Judge, Replay, TriedHooks, HooksOf, Segment, Secured, Entered, Seen, BeforePacman, RunLog, Tail;
    var e := LogEntry.Call(PacmanUpgrade, live);
    LogSplit(x);
    if Secured(x) {
      var rest := SecuredShape(x);
      BeforePacmanIsCalm(x);
      var p := LogEntry.Call(PacmanUpgrade, false);
      Grouped(BeforePacman(x), p, rest, Tail(x));
      OnlyAt(BeforePacman(x), p, rest + Tail(x), e, i);
    } else {
      NoPacman(x);
      NowhereIn(Tried(TriedHooks(x)) + Tail(x), PacmanUpgrade, live, i);
    }
  }

  lemma Grouped(a: Log, p: LogEntry<Call>, b: Log, c: Log)
    ensures a + [p] + b + c == a + [p] + (b + c)
  {
  }

  lemma NowhereIn(log: Log, c: Call, live: bool, i: nat)
    requires Lacks(log, {c}) && i < |log|
    ensures log[i] != LogEntry.Call(c, live)
  {
  }

  lemma OnlyAt(a: Log, p: LogEntry<Call>, b: Log, e: LogEntry<Call>, i: nat)
    requires e !in a && e !in b && i < |a + [p] + b| && (a + [p] + b)[i] == e
    ensures e == p && (a + [p] + b)[..i] == a
  {
  }

  lemma SecuredCopied(x: Scenario)
    requires Secured(x)
    ensures x.f.backup == Copied && Entered(x)
  {
  }

  lemma BeforePacmanIsCalm(x: Scenario)
    ensures Lacks(BeforePacman(x), WRITERS + {Paccache})
    ensures |BeforePacman(x)| > 0 && BeforePacman(x)[|BeforePacman(x)| - 1] == LogEntry.Call(SyncBackup, false)
  {
    hide Walk, Judge, Seen, GateSegments;
    var q := Walk(QUERIES, Gated(x)).calls;
    GatesAreCalm(x);
    QueriesAreCalm(Gated(x));
    SeenSnoc(q, SyncBackup, x.shown);
  }

  lemma NoPacman(x: Scenario)
    requires !Secured(x)
    ensures Lacks(Tried(TriedHooks(x)), WRITERS + {Paccache})
  {
    hide Walk, Judge, Seen, TriedHooks, GateSegments, Upgrade, Secured, Entered;
    GatesAreCalm(x);
    if Entered(x) {
      EnteredShape(x);
      UnsecuredShape(x);
    } else {
      BlockedShape(x);
    }
  }

  // ----- the rescue -----

  /** The backup the rescue finds: the pre-run database in a secured run, and
      whatever the task was built with otherwise. */
  lemma BackupAtRescue(x: Scenario)
    ensures Replay(Tried(TriedHooks(x)), x).backup == if Secured(x) then Some(x.start.sync) else x.start.backup
  {
    hide Walk, Judge, Seen, TriedHooks, GateSegments, Upgrade, BeforePacman, Segment;
    if Secured(x) {
      var rest := SecuredShape(x);
      WorldBeforePacman(x);
      var p := LogEntry.Call(PacmanUpgrade, false);
      ReplaySnoc(BeforePacman(x), p, x);
      BackupUntouched(BeforePacman(x) + [p], rest, x);
    } else {
      var log := Tried(TriedHooks(x));
      assert [] + log == log;
      GatesAreCalm(x);
      if x.f.backup != Copied {
        FailedCopyKeepsBackup(log, x);
      } else if Entered(x) {
        EnteredShape(x);
        UnsecuredShape(x);
        BackupUntouched([], log, x);
      } else {
        BlockedShape(x);
        BackupUntouched([], log, x);
      }
    }
  }

  lemma {:induction false} FailedCopyKeepsBackup(log: Log, x: Scenario)
    requires x.f.backup != Copied
    ensures Replay(log, x).backup == x.start.backup
  {
    if log != [] {
      FailedCopyKeepsBackup(log[..|log| - 1], x);
    }
  }

  /** A restore is attempted exactly when an exception escapes and there is a
      backup to restore: the one this run made, or the one the task was built
      with. For a task built without one, that is: an exception escapes after
      this run's backup was made. */
  lemma RestoreIff(x: Scenario)
    ensures Made(RunLog(x), SyncRestore) <==>
              Escaped(TriedHooks(x)).Some? && (Secured(x) || x.start.backup.Some?)
    ensures x.start.backup.None? ==> (Made(RunLog(x), SyncRestore) <==>
              Escaped(TriedHooks(x)).Some? && x.f.backup == Copied && Made(RunLog(x), SyncBackup))
  {
    LogSplit(x);
    BackupAtRescue(x);
    SeenRestore();
    NoRestoreInside(x);
    if x.f.backup == Copied { SyncBackupMade(x); }
  }

  lemma NoRestoreInside(x: Scenario)
    ensures Lacks(Tried(TriedHooks(x)), {SyncRestore})
  {
    hide Walk, Judge, Seen, TriedHooks, GateSegments, Upgrade, BeforePacman, Segment;
    if Secured(x) {
      var rest := SecuredShape(x);
      BeforePacmanIsCalm(x);
    } else {
      NoPacman(x);
    }
  }

  lemma SyncBackupMade(x: Scenario)
    requires x.f.backup == Copied
    ensures Made(RunLog(x), SyncBackup) <==> Secured(x)
  {
    hide Walk, Judge, Seen, TriedHooks, GateSegments, Upgrade, BeforePacman, Segment, HooksOf;
    LogSplit(x);
    GatesAreCalm(x);
    if Secured(x) {
      var rest := SecuredShape(x);
      BeforePacmanIsCalm(x);
      assert BeforePacman(x)[|BeforePacman(x)| - 1] in RunLog(x);
    } else if Entered(x) {
      EnteredShape(x);
      UnsecuredShape(x);
    } else {
      BlockedShape(x);
    }
  }

  /** The world the run leaves: the rescue's restore is its last write. */
  lemma FinalWorld(x: Scenario)
    ensures var w := Replay(Tried(TriedHooks(x)), x);
            Replay(RunLog(x), x) ==
            if Escaped(TriedHooks(x)).Some? && w.backup.Some?
            then w.(sync := RestoredSync(w.sync, w.backup.value, x.f.restore)) else w
  {
    hide Walk, Judge, TriedHooks, HooksOf, Segment, RestoredSync, Replay, RunLog, Tail, Seen;
    LogSplit(x);
    var tried := Tried(TriedHooks(x));
    if Escaped(TriedHooks(x)).Some? {
      RescueEffect(tried, x);
    } else {
      ReplaySnoc(tried, Closed, x);
      assert tried + ([] + [Closed]) == tried + [Closed];
    }
  }

  lemma RescueEffect(tried: Log, x: Scenario)
    ensures var w := Replay(tried, x);
            Replay(tried + ([Hook(Rollback)] + RollbackHook(w).calls + [Closed]), x) ==
            if w.backup.Some? then w.(sync := RestoredSync(w.sync, w.backup.value, x.f.restore)) else w
  {
    hide Replay, RestoredSync, Seen;
    var w, r := Replay(tried, x), LogEntry.Call(SyncRestore, false);
    SeenRestore();
    ReplaySnoc(tried, Hook(Rollback), x);
    if w.backup.Some? {
      assert tried + ([Hook(Rollback)] + [r] + [Closed]) == tried + [Hook(Rollback)] + [r] + [Closed];
      ReplaySnoc(tried + [Hook(Rollback)], r, x);
      ReplaySnoc(tried + [Hook(Rollback)] + [r], Closed, x);
    } else {
      assert tried + ([Hook(Rollback)] + [] + [Closed]) == tried + [Hook(Rollback)] + [Closed];
      ReplaySnoc(tried + [Hook(Rollback)], Closed, x);
    }
  }

  /** A run that is rescued after its backup: if the copy succeeds, every file
      that was there before the run is there again with its old content (files
      that are new stay: the restore merges); if the copy breaks, no file the
      upgrade left is lost, and each is either as it was left, or a file of the
      backup that the copy had got to, holding what the copy put there. */
  lemma RescueRestores(x: Scenario)
    requires Secured(x) && Escaped(TriedHooks(x)).Some?
    ensures var left, final := Replay(Tried(TriedHooks(x)), x).sync, Replay(RunLog(x), x).sync;
            && (x.f.restore.Restored? ==>
                  && final.Keys == left.Keys + x.start.sync.Keys
                  && (forall n <- x.start.sync :: final[n] == x.start.sync[n])
                  && (forall n <- left :: n !in x.start.sync ==> final[n] == left[n]))
            && (x.f.restore.Broken? ==>
                  && left.Keys <= final.Keys <= left.Keys + x.start.sync.Keys
                  && (forall n <- final ::
                        || (n in left && n !in x.f.restore.written && final[n] == left[n])
                        || (n in left && n !in x.start.sync && final[n] == left[n])
                        || (n in x.start.sync && n in x.f.restore.written && final[n] == x.f.restore.written[n])))
  {
    FinalWorld(x);
    BackupAtRescue(x);
  }

  /** A run that never starts pacman leaves the live database alone, rescued or
      not, unless the task was built with an old backup and an exception makes it
      restore that one. */
  lemma NoPacmanNoChange(x: Scenario)
    requires !Secured(x)
    ensures Replay(RunLog(x), x).sync ==
            if Escaped(TriedHooks(x)).Some? && x.start.backup.Some?
            then RestoredSync(x.start.sync, x.start.backup.value, x.f.restore) else x.start.sync
  {
    hide Walk, Judge, TriedHooks, HooksOf, Segment, Secured, RestoredSync;
    FinalWorld(x);
    BackupAtRescue(x);
    NoPacman(x);
    var tried := Tried(TriedHooks(x));
    SyncUntouched([], tried, x);
    assert [] + tried == tried;
  }

  // ----- which exceptions reach the rescue after the backup -----

  /** Pacman's own failure: it exited non-zero, or could not be run. */
  predicate PacmanFailed(f: Faults) {
    f.pacman.Raises? || No(f.pacman)
  }

  /** An exception after pacman succeeded. */
  predicate RaisesAfterPacman(f: Faults) {
    || f.tooling.Raises?
    || (Yes(f.tooling) && f.snapshot.Raises?)
    || f.paru.Raises? || f.manifestAfter.Raises? || f.diff.Raises? || f.pacnew.Raises? || f.record.Raises?
  }

  /** The exact condition under which a secured run is rescued: pacman failed, or
      a later step raised although pacman had succeeded. A failing AUR build is
      not among them. */
  lemma RescueIff(x: Scenario)
    requires Secured(x)
    ensures Escaped(TriedHooks(x)).Some? <==> PacmanFailed(x.f) || RaisesAfterPacman(x.f)
  {
    hide Walk, Seen, RaisesAfterPacman;
    var g := Gated(x);
    ExecShape(g);
    AfterPacmanEnds(g);
  }

  lemma AfterPacmanEnds(x: Scenario)
    ensures Walk(AFTER_PACMAN, x).end == Go <==> !RaisesAfterPacman(x.f)
    ensures Walk(AFTER_PACMAN, x).end == Go || Walk(AFTER_PACMAN, x).end.Escape?
  {
    hide Walk;
    EndsGoIff(AFTER_PACMAN, x);
    if Walk(AFTER_PACMAN, x).end == Go {
      RepliesAfterPacman(AFTER_PACMAN, x);
    } else {
      var c :| c in AFTER_PACMAN && Applies(c, x) && Walk(AFTER_PACMAN, x).end == Judge(c, x);
      AfterPacmanJudged(c, x);
    }
  }

  lemma AfterPacmanJudged(c: Call, x: Scenario)
    requires c in AFTER_PACMAN && Applies(c, x) && Judge(c, x) != Go
    ensures RaisesAfterPacman(x.f) && Judge(c, x).Escape?
  {
  }

  lemma {:induction false} EndsGoIff(script: seq<Call>, x: Scenario)
    ensures Walk(script, x).end == Go <==> forall c <- script :: Applies(c, x) ==> Judge(c, x) == Go
    ensures Walk(script, x).end != Go ==>
              exists c <- script :: Applies(c, x) && Walk(script, x).end == Judge(c, x)
  {
    if script != [] {
      EndsGoIff(script[1..], x);
      assert script == [script[0]] + script[1..];
    }
  }

  // ----- the gates in closed form -----

  predicate ProbesPass(f: Faults) {
    f.pacmanFound && f.paruFound && f.checkupdatesFound && f.terminal
  }

  /** Fresh mirrorlist, enough updates, no pending reboot. */
  predicate WorkDue(x: Scenario) {
    && x.f.mirrorlist.Returns? && !Stale(x, x.f.mirrorlist.value)
    && PendingRepo(x).Returns? && !TooFew(x)
    && No(x.f.reboot)
  }

  /** The news question is put to the user. */
  predicate Asked(x: Scenario) {
    ProbesPass(x.f) && WorkDue(x) && Yes(x.f.unread) && !InCooldown(x) && x.f.headlines.Returns?
  }

  lemma ProbesIff(x: Scenario)
    ensures PreHook(x).reply == Returns(ProbesPass(x.f))
  {
    hide Walk;
    EndsGoIff(PRE_CHECK, x);
    if Walk(PRE_CHECK, x).end == Go {
      AllWent(PRE_CHECK, x, ProbePacman);
      AllWent(PRE_CHECK, x, ProbeParu);
      AllWent(PRE_CHECK, x, ProbeCheckupdates);
      AllWent(PRE_CHECK, x, ProbeTerminal);
    }
  }

  const FIRST_GATES := [ReadMirrorlist, CheckUpdates]

  const NEWS_GATE := [NewsQuery, Headlines, NewsConfirm]

  lemma GatesShape(x: Scenario)
    ensures Walk(GateScript(x), x).end == Go && !TooFew(x) ==> WorkDue(x)
    ensures !WorkDue(x) && !TooFew(x) ==>
              Walk(GateScript(x), x).end != Go && Lacks(Seen(Walk(GateScript(x), x).calls, x.shown), {NewsConfirm})
    ensures TooFew(x) ==> Lacks(Seen(Walk(GateScript(x), x).calls, x.shown), {NewsConfirm})
    ensures WorkDue(x) ==> Walk(GateScript(x), x).end == Walk(NEWS_GATE, x).end
    ensures WorkDue(x) ==> (NewsConfirm in Walk(GateScript(x), x).calls <==> NewsConfirm in Walk(NEWS_GATE, x).calls)
  {
    hide Walk, Judge, Applies, Seen;
    var first, later := Walk(FIRST_GATES, x), Walk([KernelProbe], x);
    WalkWithin(FIRST_GATES, x);
    WalkWithin([KernelProbe], x);
    assert GATES[..2] == FIRST_GATES;
    SeenLacks(first.calls, {NewsConfirm}, x.shown);
    if !TooFew(x) {
      assert GATES == FIRST_GATES + ([KernelProbe] + NEWS_GATE);
      WalkSplit(FIRST_GATES, [KernelProbe] + NEWS_GATE, x);
      WalkSplit([KernelProbe], NEWS_GATE, x);
      SeenLacks(first.calls + later.calls, {NewsConfirm}, x.shown);
      WorkDueWalk(x);
    }
  }

  lemma WorkDueWalk(x: Scenario)
    requires !TooFew(x)
    ensures WorkDue(x) <==> Walk(FIRST_GATES, x).end == Go && Walk([KernelProbe], x).end == Go
  {
    EndsGoIff(FIRST_GATES, x);
    EndsGoIff([KernelProbe], x);
    assert ReadMirrorlist in FIRST_GATES && CheckUpdates in FIRST_GATES && KernelProbe in [KernelProbe];
  }

  lemma NewsGateShape(x: Scenario)
    ensures NewsConfirm in Walk(NEWS_GATE, x).calls <==>
              Yes(x.f.unread) && !InCooldown(x) && x.f.headlines.Returns?
    ensures Walk(NEWS_GATE, x).end == Go <==>
              No(x.f.unread) || (Yes(x.f.unread) && (InCooldown(x) || (x.f.headlines.Returns? && Yes(x.f.answer))))
  {
    var last, tail := [NewsConfirm], [Headlines, NewsConfirm];
    assert NEWS_GATE[1..] == tail && tail[1..] == last && last[1..] == [];
    var w0, w1, w2 := Walk(last, x), Walk(tail, x), Walk(NEWS_GATE, x);
    assert Walk(last[1..], x) == Walked([], Go);
    assert w0.calls == if Applies(NewsConfirm, x) then [NewsConfirm] else [];
    assert w0.end == if Applies(NewsConfirm, x) then Judge(NewsConfirm, x) else Go;
    if !Applies(Headlines, x) {
      assert w1 == w0;
    } else if Judge(Headlines, x) == Go {
      assert w1.calls == [Headlines] + w0.calls && w1.end == w0.end;
      assert w0.calls[0] == NewsConfirm && w1.calls[1] == NewsConfirm;
    } else {
      assert w1.calls == [Headlines];
    }
    if Judge(NewsQuery, x) == Go {
      assert w2.calls == [NewsQuery] + w1.calls && w2.end == w1.end;
    } else {
      assert w2.calls == [NewsQuery];
    }
  }

  /** The upgrade is entered exactly when the tools and the terminal are there,
      the work is due, and the news gate does not hold it back. */
  lemma EnteredIff(x: Scenario)
    ensures Entered(x) <==>
              ProbesPass(x.f) && WorkDue(x)
              && (No(x.f.unread)
                  || (Yes(x.f.unread) && (InCooldown(x) || (x.f.headlines.Returns? && Yes(x.f.answer)))))
  {
    hide Walk, Judge, Seen, WorkDue;
    ProbesIff(x);
    GatesShape(x);
    NewsGateShape(x);
    if TooFew(x) { TooFewIsNotDue(x); }
  }

  lemma TooFewIsNotDue(x: Scenario)
    requires TooFew(x)
    ensures !WorkDue(x)
  {
  }

  /** `pacman -Syu` is started exactly when the upgrade is entered, the AUR query
      and the first manifest return, and the backup copy succeeds. */
  lemma PacmanStartsIff(x: Scenario)
    ensures Made(RunLog(x), PacmanUpgrade) <==>
              Entered(x) && x.f.aur.Returns? && x.f.manifestBefore.Returns? && x.f.backup == Copied
  {
    hide Walk, Judge, Replay, TriedHooks, HooksOf, Segment, Entered, Seen, BeforePacman, RunLog, Tail, GateSegments;
    LogSplit(x);
    SecuredIff(x);
    if Secured(x) {
      var rest := SecuredShape(x);
      assert RunLog(x)[|BeforePacman(x)|] == LogEntry.Call(PacmanUpgrade, false);
    } else {
      NoPacman(x);
    }
  }

  lemma SecuredIff(x: Scenario)
    ensures Secured(x) <==>
              Entered(x) && x.f.aur.Returns? && x.f.manifestBefore.Returns? && x.f.backup == Copied
  {
    hide Walk;
    var g := Gated(x);
    EndsGoIff(QUERIES, g);
    assert AurQuery in QUERIES && ManifestBefore in QUERIES;
    if Entered(x) {
      EnteredHasUpdates(x);
    }
  }

  lemma EnteredHasUpdates(x: Scenario)
    requires Entered(x)
    ensures Gated(x).pending.Some?
  {
    hide Walk, Judge;
    EnteredIff(x);
  }

  // ----- prompts never meet a live render -----

  predicate AsSeen(log: Log, s: Shown) {
    forall e <- log :: e.Call? ==> e.live == LiveDuring(e.call, s)
  }

  predicate Clean(log: Log) {
    forall e <- log :: e.Call? && IsPrompt(e.call) ==> !e.live
  }

  /** In every run that starts with a stopped render, it is stopped at every call
      that may ask the user something. In any run, it is, unless the news question
      is asked while a render the run found is still going: every other prompt
      comes with a bracket of its own. */
  lemma PromptsAreCleanIff(x: Scenario)
    ensures Clean(RunLog(x)) <==> !(Asked(x) && x.shown.After())
  {
    hide Walk, Judge, Replay, HooksOf, RunLog, Tail, Asked;
    RunIsSeen(x);
    AskedInGates(x);
    if Asked(x) {
      assert LogEntry.Call(NewsConfirm, x.shown.After()) in RunLog(x);
    }
  }

  lemma RunIsSeen(x: Scenario)
    ensures forall e <- RunLog(x) :: e.Call? ==> e.live == LiveDuring(e.call, x.shown)
  {
    hide Walk, Judge, Replay, HooksOf, RunLog, Tail;
    LogSplit(x);
    SeenRestore();
    var h, s := TriedHooks(x), x.shown;
    assert forall calls :: AsSeen(Seen(calls, s), s);
    assert AsSeen(Segment(h, PreCheck), s) && AsSeen(Segment(h, ShouldRun), s);
    assert AsSeen(Segment(h, Execute), s) && AsSeen(Segment(h, PostExecute), s);
    assert AsSeen(Tail(x), s);
  }

  // ----- outcomes -----

  /** The backup could not be made, and nothing was started. */
  predicate BackupRefused(x: Scenario) {
    Entered(x) && x.f.aur.Returns? && x.f.manifestBefore.Returns? && x.f.backup.OsError?
  }

  predicate Completed(x: Scenario) {
    Secured(x) && !PacmanFailed(x.f) && !RaisesAfterPacman(x.f)
  }

  /** The status of every run: a completed transaction is SUCCESS or PARTIAL by
      the AUR half alone; a blocked one is SKIPPED; everything else is FAILURE. */
  lemma OutcomeTable(x: Scenario)
    ensures Result(HooksOf(x)).status ==
            if Completed(x) then (if Yes(x.f.paru) then SUCCESS else PARTIAL)
            else if !Entered(x) && Escaped(TriedHooks(x)).None? then SKIPPED
            else FAILURE
    ensures Result(HooksOf(x)).status == FAILURE <==> Escaped(TriedHooks(x)).Some? || BackupRefused(x)
  {
    SameTried(x);
    hide HooksOf, Walk, Seen, Replay;
    if Entered(x) {
      UpgradeOutcome(x);
    } else {
      BlockedOutcome(x);
    }
  }

  lemma BlockedOutcome(x: Scenario)
    requires !Entered(x)
    ensures Result(TriedHooks(x)).status == if Escaped(TriedHooks(x)).Some? then FAILURE else SKIPPED
  {
  }

  lemma UpgradeOutcome(x: Scenario)
    requires Entered(x)
    ensures Escaped(TriedHooks(x)).Some? <==> !Completed(x) && !BackupRefused(x)
    ensures Completed(x) ==> Result(TriedHooks(x)).status == if Yes(x.f.paru) then SUCCESS else PARTIAL
    ensures BackupRefused(x) ==> Result(TriedHooks(x)).status == FAILURE
    ensures !(Completed(x) && BackupRefused(x))
  {
    var g := Gated(x);
    UpgradeEnds(x);
    hide Walk, Seen, Judge, RaisesAfterPacman, Secured, BackupRefused;
    var w := Walk(UPGRADE, g);
    if w.end == Go { UpgradeReplies(g); }
  }

  lemma UpgradeEnds(x: Scenario)
    requires Entered(x)
    ensures Walk(UPGRADE, Gated(x)).end == Go <==> Completed(x)
    ensures Walk(UPGRADE, Gated(x)).end.Abort? <==> BackupRefused(x)
    ensures !Walk(UPGRADE, Gated(x)).end.Block?
  {
    hide Walk, Seen, RaisesAfterPacman;
    var g := Gated(x);
    ExecShape(g);
    AfterPacmanEnds(g);
    SecuredIff(x);
    EnteredHasUpdates(x);
    QueriesEnd(g);
  }

  lemma QueriesEnd(x: Scenario)
    requires x.pending.Some?
    ensures Walk(QUERIES, x).end == Go <==> x.f.aur.Returns? && x.f.manifestBefore.Returns?
    ensures Walk(QUERIES, x).end == Go || Walk(QUERIES, x).end.Escape?
  {
    hide Walk;
    EndsGoIff(QUERIES, x);
    assert AurQuery in QUERIES && ManifestBefore in QUERIES;
  }

  /** The cache is pruned exactly on SUCCESS, so a PARTIAL run keeps the packages
      its user may need to downgrade to. */
  lemma PrunedIffSuccess(x: Scenario)
    ensures Made(RunLog(x), Paccache) <==> Result(HooksOf(x)).status == SUCCESS
  {
    hide HooksOf, Walk, Judge, Replay, RunLog, Tail;
    SameTried(x);
    LogSplit(x);
    GatesAreCalm(x);
    if Entered(x) {
      PrunedInside(x);
      EnteredShape(x);
    } else {
      BlockedShape(x);
      BlockedOutcome(x);
    }
  }

  lemma PrunedInside(x: Scenario)
    requires Entered(x)
    ensures Made(Upgrade(x), Paccache) <==> Result(TriedHooks(x)).status == SUCCESS
  {
    hide Walk, Judge, Seen, Upgraded;
    WalkWithin(UPGRADE, Gated(x));
    MadeSeen(Walk(UPGRADE, Gated(x)).calls, Paccache, x.shown);
    MadeSeen(PostCalls(x, true), Paccache, x.shown);
    MadeSeen(PostCalls(x, false), Paccache, x.shown);
  }

  /** Neither a failing `paccache` nor a failing notifier changes what a run does
      or how it ends; only the reclaimed byte count depends on them. */
  lemma FollowUpIsBestEffort(x: Scenario, paccache: Reply<nat>, notify: Reply<()>)
    ensures var y := x.(f := x.f.(paccache := paccache, notify := notify));
            && RunLog(y) == RunLog(x)
            && Result(HooksOf(y)).status == Result(HooksOf(x)).status
            && Result(HooksOf(y)).error == Result(HooksOf(x)).error
  {
    var y := x.(f := x.f.(paccache := paccache, notify := notify));
    SameWalk(PRE_CHECK, x, y);
    SameWalk(GateScript(x), x, y);
    SameWalk(UPGRADE, Gated(x), Gated(y));
    SameTries(x, y);
    SameReplay(Tried(TriedHooks(x)), x, y);
    LogSplit(x);
    LogSplit(y);
    SameTried(x);
    SameTried(y);
  }

  /** Two scenarios that differ at most in the follow-up's replies. */
  predicate Alike(x: Scenario, y: Scenario) {
    y == x.(f := x.f.(paccache := y.f.paccache, notify := y.f.notify))
  }

  lemma {:induction false} SameWalk(script: seq<Call>, x: Scenario, y: Scenario)
    requires Alike(x, y)
    ensures Walk(script, x) == Walk(script, y)
  {
    if script != [] {
      SameWalk(script[1..], x, y);
      assert Applies(script[0], x) == Applies(script[0], y);
      assert Judge(script[0], x) == Judge(script[0], y);
    }
  }

  lemma {:induction false} SameReplay(log: Log, x: Scenario, y: Scenario)
    requires Alike(x, y)
    ensures Replay(log, x) == Replay(log, y)
  {
    if log != [] {
      SameReplay(log[..|log| - 1], x, y);
    }
  }

  lemma SameTries(x: Scenario, y: Scenario)
    requires Alike(x, y)
    requires Walk(PRE_CHECK, x) == Walk(PRE_CHECK, y) && Walk(GateScript(x), x) == Walk(GateScript(x), y)
    requires Walk(UPGRADE, Gated(x)) == Walk(UPGRADE, Gated(y))
    ensures Tried(TriedHooks(x)) == Tried(TriedHooks(y)) && Escaped(TriedHooks(x)) == Escaped(TriedHooks(y))
    ensures Result(TriedHooks(x)).status == Result(TriedHooks(y)).status
    ensures Result(TriedHooks(x)).error == Result(TriedHooks(y)).error
  {
    SameHooks(x, y);
    hide Walk, Judge, Seen, PreHook, GateHook, ExecHook, PostHook;
    var reply := ExecHook(Gated(x)).reply;
    if reply.Returns? { SameFollowUp(x, y, reply.value); }
    SameRun(TriedHooks(x), TriedHooks(y));
  }

  lemma SameFollowUp(x: Scenario, y: Scenario, r: TaskResult<Details>)
    requires Alike(x, y)
    ensures PostHook(x, r).calls == PostHook(y, r).calls
    ensures PostHook(x, r).reply.Returns? && PostHook(y, r).reply.Returns?
    ensures PostHook(x, r).reply.value.status == PostHook(y, r).reply.value.status
    ensures PostHook(x, r).reply.value.error == PostHook(y, r).reply.value.error
  {
  }

  /** Hooks that differ at most in the details the follow-up returns. */
  lemma SameRun(g: Hooks<Call, Details>, h: Hooks<Call, Details>)
    requires g.pre == h.pre && g.gate == h.gate && g.exec == h.exec && g.post.calls == h.post.calls
    requires g.post.reply.Raises? ==> g.post.reply == h.post.reply
    requires g.post.reply.Returns? ==>
               && h.post.reply.Returns? && g.post.reply.value.status == h.post.reply.value.status
               && g.post.reply.value.error == h.post.reply.value.error
    ensures Tried(g) == Tried(h) && Escaped(g) == Escaped(h)
    ensures Result(g).status == Result(h).status && Result(g).error == Result(h).error
  {
    HookByHook(g);
    HookByHook(h);
    hide Tried;
  }

  lemma SameHooks(x: Scenario, y: Scenario)
    requires Alike(x, y)
    requires Walk(PRE_CHECK, x) == Walk(PRE_CHECK, y) && Walk(GateScript(x), x) == Walk(GateScript(x), y)
    requires Walk(UPGRADE, Gated(x)) == Walk(UPGRADE, Gated(y))
    ensures PreHook(x) == PreHook(y) && GateHook(x) == GateHook(y) && ExecHook(Gated(x)) == ExecHook(Gated(y))
  {
    hide Walk, Judge, Seen;
    var g, h := Gated(x), Gated(y);
    if Walk(UPGRADE, g).end == Go {
      UpgradeReplies(g);
      UpgradeReplies(h);
    }
  }

  /** The AUR half is reported whole on one side: every pending AUR package is
      listed once, as upgraded in a SUCCESS and as failed in a PARTIAL. */
  lemma AurIsReportedWhole(x: Scenario)
    requires Completed(x)
    ensures Result(HooksOf(x)).details.Some? && PendingRepo(x).Returns?
    ensures x.f.aur.Returns? && x.f.manifestBefore.Returns? && x.f.manifestAfter.Returns?
    ensures var d := Result(HooksOf(x)).details.value;
            && (if Result(HooksOf(x)).status == SUCCESS
                then d.aurUpgraded == x.f.aur.value && d.aurFailed == []
                else d.aurUpgraded == [] && d.aurFailed == x.f.aur.value)
            && d.packagesUpgraded == PendingRepo(x).value
            && d.packagesRemoved == x.f.manifestBefore.value - x.f.manifestAfter.value
  {
    SameTried(x);
    UpgradeEnds(x);
    EnteredHasUpdates(x);
    hide HooksOf, Walk, Seen, Replay, Judge;
    UpgradeReplies(Gated(x));
    assert ExecHook(Gated(x)).reply == Returns(Upgraded(Gated(x)));
  }

  // ----- the rollback that its documentation rules out -----

  /** Everything works, and then the recovery record cannot be written. */
  const RECORD_LOST := Faults(
    true, true, true, true,
    Returns(None), 0,
    Returns(["linux"]),
    Returns(false),
    Returns(false), 0, Returns(()), Returns(true), 0,
    Returns([]),
    Returns({"linux"}),
    Copied,
    Returns(true), map["core.db" := "new"],
    Returns(false), Returns(None),
    Returns(true), map["core.db" := "new"],
    Returns({"linux"}), Returns(()), Returns([]), Raises("disk full"),
    Returns(0), Returns(()),
    Restored)

  /** `rollback` documents itself as running exactly when pacman fails. A run in
      which pacman succeeded and the record write failed is rolled back too: the
      upgraded packages stay and the sync database is rewound. */
  lemma RollbackAfterSuccessfulPacman()
    ensures var x := Scenario(Settings(1, 7, 30), RECORD_LOST, World(map["core.db" := "old"], None, None),
                              None, None, true, false, STOPPED);
            && !PacmanFailed(x.f)
            && Made(RunLog(x), SyncRestore)
            && "core.db" in Replay(RunLog(x), x).sync && Replay(RunLog(x), x).sync["core.db"] == "old"
            && Result(HooksOf(x)).status == FAILURE
  {
    var x := Scenario(Settings(1, 7, 30), RECORD_LOST, World(map["core.db" := "old"], None, None),
                      None, None, true, false, STOPPED);
    hide Walk, Judge, Replay, TriedHooks, HooksOf, RunLog;
    EnteredIff(x);
    SecuredIff(x);
    RescueIff(x);
    RestoreIff(x);
    RescueRestores(x);
    OutcomeTable(x);
  }

  // ----- the news question -----

  /** The user is asked exactly in the runs whose earlier gates pass with unread
      news outside the cooldown; only an answer moves the recorded time. */
  lemma NewsPrompt(x: Scenario)
    ensures Made(RunLog(x), NewsConfirm) <==> Asked(x)
    ensures Replay(RunLog(x), x).lastPrompt ==
            if Asked(x) && x.f.answer.Returns? && x.hasState then Some(x.f.answeredAt) else x.start.lastPrompt
  {
    AskedInGates(x);
    PromptTime(RunLog(x), x);
  }

  lemma {:induction false} PromptTime(log: Log, x: Scenario)
    ensures Replay(log, x).lastPrompt ==
            if Made(log, NewsConfirm) && x.f.answer.Returns? && x.hasState then Some(x.f.answeredAt)
            else x.start.lastPrompt
  {
    if log != [] {
      var init, e := log[..|log| - 1], log[|log| - 1];
      PromptTime(init, x);
      assert log == init + [e];
      OnlyAnswersMove(e, x, Replay(init, x));
      hide Effect;
    }
  }

  lemma OnlyAnswersMove(e: LogEntry<Call>, x: Scenario, w: World)
    ensures Effect(e, x, w).lastPrompt ==
            if e.Call? && e.call == NewsConfirm && x.f.answer.Returns? && x.hasState then Some(x.f.answeredAt)
            else w.lastPrompt
  {
  }

  lemma AskedInGates(x: Scenario)
    ensures Made(RunLog(x), NewsConfirm) <==> Asked(x)
  {
    LogSplit(x);
    ProbesIff(x);
    GatesShape(x);
    NewsGateShape(x);
    WalkWithin(PRE_CHECK, x);
    WalkWithin(UPGRADE, Gated(x));
    hide Walk, Judge, Replay, HooksOf, RunLog, Applies, WorkDue;
    SeenRestore();
    var g := Walk(GateScript(x), x).calls;
    MadeSeen(g, NewsConfirm, x.shown);
    MadeSeen(Walk(PRE_CHECK, x).calls, NewsConfirm, x.shown);
    MadeSeen(Walk(UPGRADE, Gated(x)).calls, NewsConfirm, x.shown);
    if TooFew(x) { TooFewIsNotDue(x); }
    assert Made(Seen(g, x.shown), NewsConfirm) <==>
             WorkDue(x) && Yes(x.f.unread) && !InCooldown(x) && x.f.headlines.Returns?;
    NoNewsLater(x);
    NewsOnlyInGates(x);
  }

  lemma NewsOnlyInGates(x: Scenario)
    requires RunLog(x) == Tried(TriedHooks(x)) + Tail(x) && !Made(Tail(x), NewsConfirm)
    requires !Made(Segment(TriedHooks(x), PostExecute), NewsConfirm)
    requires !Made(PreHook(x).calls, NewsConfirm) && !Made(ExecHook(Gated(x)).calls, NewsConfirm)
    ensures Made(RunLog(x), NewsConfirm) <==> PreHook(x).reply == Returns(true) && Made(GateHook(x).calls, NewsConfirm)
  {
    hide Walk, Judge, Seen, RunLog, Tail, GateHook, ExecHook, PreHook, PostHook;
  }

  lemma NoNewsLater(x: Scenario)
    ensures !Made(Tail(x), NewsConfirm)
    ensures !Made(Segment(TriedHooks(x), PostExecute), NewsConfirm)
  {
    NoNewsInTail(x);
    NoNewsInFollowUp(x);
  }

  lemma NoNewsInTail(x: Scenario)
    ensures !Made(Tail(x), NewsConfirm)
  {
    hide Walk, Judge, Replay, HooksOf, TriedHooks, Tail, Seen, Escaped, Tried;
    LogSplit(x);
    SeenRestore();
  }

  lemma NoNewsInFollowUp(x: Scenario)
    ensures !Made(Segment(TriedHooks(x), PostExecute), NewsConfirm)
  {
    hide Walk, Judge, Seen, Upgraded, Cut;
    MadeSeen(PostCalls(x, true), NewsConfirm, x.shown);
    MadeSeen(PostCalls(x, false), NewsConfirm, x.shown);
  }

  /** Everything works, there is unread news, and the question about it raises. */
  const PROMPT_BROKEN := RECORD_LOST.(unread := Returns(true), answer := Raises("aborted"))

  /** The prompt is said to be recorded as soon as it is shown. Here it is shown,
      nothing is recorded, and a second run at the very same time asks again. */
  lemma AbortedPromptIsAskedAgain()
    ensures var x := Scenario(Settings(1, 7, 30), PROMPT_BROKEN, World(map[], None, None),
                              None, None, true, false, STOPPED);
            var y := x.(start := Replay(RunLog(x), x));
            && Made(RunLog(x), NewsConfirm) && Replay(RunLog(x), x).lastPrompt == None
            && Made(RunLog(y), NewsConfirm)
  {
    var x := Scenario(Settings(1, 7, 30), PROMPT_BROKEN, World(map[], None, None),
                      None, None, true, false, STOPPED);
    hide Walk, Judge, Replay, TriedHooks, HooksOf, RunLog;
    NewsPrompt(x);
    NewsPrompt(x.(start := Replay(RunLog(x), x)));
  }
}
