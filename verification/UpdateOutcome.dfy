/** How every run of the system update ends, read off the replies alone: the whole
    result, with its skip reason, its error and its details. */
module UpdateOutcome {
  import opened Std
  import opened Models
  import opened Progress
  import opened BaseTask
  import opened UpdateScript
  import opened UpdateProperties

  // ----- the table of results -----

  /** The updates a run works on: the ones it holds, or the ones it is told. */
  function UpdateList(x: Scenario): seq<string> {
    if x.pending.Some? then x.pending.value else if x.f.updates.Returns? then x.f.updates.value else []
  }

  /** The question about the news: `None` lets the run through. */
  function NewsResult(x: Scenario): Option<TaskResult<Details>> {
    var f := x.f;
    if f.unread.Raises? then Some(Failed(f.unread.error))
    else if !f.unread.value then None
    else if x.hasState && x.start.lastPrompt.Some?
            && f.newsCheckedAt - x.start.lastPrompt.value < x.settings.cooldownMinutes * MINUTE then None
    else if f.headlines.Raises? then Some(Failed(f.headlines.error))
    else if f.answer.Raises? then Some(Failed(f.answer.error))
    else if !f.answer.value then Some(Skipped(Some(USER_CANCELLED)))
    else None
  }

  /** The probes and the gates, in the order they decide. */
  function GateResult(x: Scenario): Option<TaskResult<Details>> {
    var f := x.f;
    if !(f.pacmanFound && f.paruFound && f.checkupdatesFound && f.terminal) then Some(Skipped(Some(DEPENDENCY_FAILED)))
    else if f.mirrorlist.Raises? then Some(Failed(f.mirrorlist.error))
    else if f.mirrorlist.value.Some?
            && (f.mirrorlistCheckedAt - f.mirrorlist.value.value) / DAY > x.settings.staleDays
         then Some(Skipped(Some(MIRRORLIST_STALE)))
    else if x.pending.None? && f.updates.Raises? then Some(Failed(f.updates.error))
    else if |UpdateList(x)| < x.settings.threshold then Some(Skipped(Some(NO_WORK_NEEDED)))
    else if f.reboot.Raises? then Some(Failed(f.reboot.error))
    else if f.reboot.value then Some(Skipped(Some(REBOOT_REQUIRED)))
    else NewsResult(x)
  }

  /** The first thing that went wrong up to pacman's own end. */
  function ErrorUpToPacman(f: Faults): Option<string> {
    if f.aur.Raises? then Some(f.aur.error)
    else if f.manifestBefore.Raises? then Some(f.manifestBefore.error)
    else if f.backup != Copied then Some(f.backup.error)
    else if f.pacman.Raises? then Some(f.pacman.error)
    else if !f.pacman.value then Some("pacman -Syu failed")
    else None
  }

  /** The first thing that went wrong after that, up to the AUR upgrade. */
  function ErrorUpToParu(f: Faults): Option<string> {
    if f.tooling.Raises? then Some(f.tooling.error)
    else if f.tooling.value && f.snapshot.Raises? then Some(f.snapshot.error)
    else if f.paru.Raises? then Some(f.paru.error)
    else None
  }

  /** And in the report. */
  function ReportError(f: Faults): Option<string> {
    if f.manifestAfter.Raises? then Some(f.manifestAfter.error)
    else if f.diff.Raises? then Some(f.diff.error)
    else if f.pacnew.Raises? then Some(f.pacnew.error)
    else if f.record.Raises? then Some(f.record.error)
    else None
  }

  function ErrorAfterPacman(f: Faults): Option<string> {
    if ErrorUpToParu(f).Some? then ErrorUpToParu(f) else ReportError(f)
  }

  /** The result of an upgrade in which nothing went wrong. */
  function FullResult(x: Scenario): TaskResult<Details>
    requires ErrorUpToPacman(x.f) == None && ErrorAfterPacman(x.f) == None
  {
    var f := x.f;
    var ok := f.paru.value;
    TaskResult(
      if ok then SUCCESS else PARTIAL, None, None,
      Some(Details(
             UpdateList(x),
             if ok then f.aur.value else [],
             if ok then [] else f.aur.value,
             f.manifestBefore.value - f.manifestAfter.value,
             f.pacnew.value,
             if f.tooling.value then f.snapshot.value else x.snapshotBefore,
             if ok && f.paccache.Returns? then Some(f.paccache.value) else None)),
      0)
  }

  function WorkResult(x: Scenario): TaskResult<Details> {
    if ErrorUpToPacman(x.f).Some? then Failed(ErrorUpToPacman(x.f).value)
    else if ErrorAfterPacman(x.f).Some? then Failed(ErrorAfterPacman(x.f).value)
    else FullResult(x)
  }

  /** Every run ends as the table says. */
  lemma EveryResult(x: Scenario)
    ensures Result(HooksOf(x)) == if GateResult(x).Some? then GateResult(x).value else WorkResult(x)
  {
    hide HooksOf, Walk, Judge, Seen, Replay, GateResult, WorkResult, GateHook, PreHook, ExecHook, PostHook;
    SameTried(x);
    ProbesIff(x);
    ResultByHook(x);
    if ProbesPass(x.f) { GatesEnd(x); }
    NoProbesNoRun(x);
    if Entered(x) { WorkEnds(x); }
  }

  /** Why a run was skipped, and that it is said for skipped runs only. */
  lemma SkipReasonIff(x: Scenario)
    ensures var r, f := Result(HooksOf(x)), x.f;
            var found := f.pacmanFound && f.paruFound && f.checkupdatesFound && f.terminal;
            var recent := found && f.mirrorlist.Returns?
                         && (f.mirrorlist.value.Some? ==>
                               (f.mirrorlistCheckedAt - f.mirrorlist.value.value) / DAY <= x.settings.staleDays);
            var told := recent && (x.pending.Some? || f.updates.Returns?);
            var enough := told && |UpdateList(x)| >= x.settings.threshold;
            && (r.status == SKIPPED <==> r.skipReason.Some?)
            && (r.skipReason == Some(DEPENDENCY_FAILED) <==> !found)
            && (r.skipReason == Some(MIRRORLIST_STALE) <==> found && f.mirrorlist.Returns? && !recent)
            && (r.skipReason == Some(NO_WORK_NEEDED) <==> told && !enough)
            && (r.skipReason == Some(REBOOT_REQUIRED) <==> enough && Yes(f.reboot))
            && (r.skipReason == Some(USER_CANCELLED) <==> Made(RunLog(x), NewsConfirm) && No(f.answer))
            && r.skipReason !in {Some(DISABLED), Some(NOT_DUE)}
  {
    EveryResult(x);
    NewsPrompt(x);
    hide HooksOf, RunLog, Made, Result, ErrorUpToPacman, ErrorAfterPacman;
  }

  lemma NoProbesNoRun(x: Scenario)
    ensures !ProbesPass(x.f) ==> GateResult(x) == Some(Skipped(Some(DEPENDENCY_FAILED)))
  {
  }

  /** The result, by the replies of the hooks. */
  lemma ResultByHook(x: Scenario)
    requires PreHook(x).reply.Returns?
    ensures var r, pre := Result(TriedHooks(x)), PreHook(x).reply;
            var gate, exec := GateHook(x).reply, ExecHook(Gated(x)).reply;
            && (pre == Returns(false) ==> r == Skipped(Some(DEPENDENCY_FAILED)))
            && (pre == Returns(true) && gate.Raises? ==> r == Failed(gate.error))
            && (pre == Returns(true) && gate.Returns? && gate.value.Skip? ==> r == Skipped(gate.value.reason))
            && (pre == Returns(true) && gate == Returns(Proceed) ==>
                  && Entered(x)
                  && (exec.Raises? ==> r == Failed(exec.error))
                  && (exec.Returns? ==> Returns(r) == PostHook(x, exec.value).reply))
  {
    hide Walk, Judge, Seen, Upgraded, Cut, GateReply;
  }

  /** One call less of a script. */
  lemma EndOf(c: Call, rest: seq<Call>, x: Scenario)
    ensures Walk([c] + rest, x).end == if Applies(c, x) && Judge(c, x) != Go then Judge(c, x) else Walk(rest, x).end
  {
    assert ([c] + rest)[1..] == rest;
  }

  /** The reply of the gates, as the table has it. */
  lemma GatesEnd(x: Scenario)
    requires ProbesPass(x.f)
    ensures var g, reply := GateResult(x), GateHook(x).reply;
            && (g == None <==> reply == Returns(Proceed))
            && (g.Some? ==> (reply.Raises? && g.value == Failed(reply.error))
                            || (reply.Returns? && reply.value.Skip? && g.value == Skipped(reply.value.reason)))
  {
    NothingEnds(x);
    NewsEnds(x);
    hide Walk, Seen, NewsResult;
    var news := [NewsQuery, Headlines, NewsConfirm];
    assert GATES[..2] == [ReadMirrorlist] + ([CheckUpdates] + []);
    assert GATES == [ReadMirrorlist] + ([CheckUpdates] + ([KernelProbe] + news));
    EndOf(KernelProbe, news, x);
    EndOf(CheckUpdates, [], x);
    EndOf(CheckUpdates, [KernelProbe] + news, x);
    EndOf(ReadMirrorlist, [CheckUpdates] + [], x);
    EndOf(ReadMirrorlist, [CheckUpdates] + ([KernelProbe] + news), x);
  }

  lemma NothingEnds(x: Scenario)
    ensures Walk([], x) == Walked([], Go)
  {
  }

  lemma NewsEnds(x: Scenario)
    ensures var r, end := NewsResult(x), Walk([NewsQuery, Headlines, NewsConfirm], x).end;
            && (r == None <==> end == Go)
            && (r.Some? ==> (end.Escape? && r.value == Failed(end.error))
                            || (end.Block? && r.value == Skipped(Some(end.reason))))
  {
    NothingEnds(x);
    hide Walk;
    assert [NewsQuery, Headlines, NewsConfirm] == [NewsQuery] + ([Headlines] + ([NewsConfirm] + []));
    EndOf(NewsConfirm, [], x);
    EndOf(Headlines, [NewsConfirm] + [], x);
    EndOf(NewsQuery, [Headlines] + ([NewsConfirm] + []), x);
  }

  /** What an entered upgrade yields, as the table has it. */
  lemma WorkEnds(x: Scenario)
    requires Entered(x)
    ensures var exec := ExecHook(Gated(x)).reply;
            && (exec.Raises? ==> WorkResult(x) == Failed(exec.error))
            && (exec.Returns? ==> PostHook(x, exec.value).reply == Returns(WorkResult(x)))
  {
    var g := Gated(x);
    EnteredHasUpdates(x);
    UpgradeEnd(g);
    hide Walk, Seen, ErrorUpToPacman, ErrorAfterPacman;
    if Walk(UPGRADE, g).end == Go { UpgradeReplies(g); }
  }

  lemma UpgradeEnd(x: Scenario)
    requires x.pending.Some?
    ensures var e, end := ErrorUpToPacman(x.f), Walk(UPGRADE, x).end;
            && (e.Some? ==> (end == Escape(e.value) || end == Abort(e.value)))
            && (e.None? && ErrorAfterPacman(x.f).Some? ==> end == Escape(ErrorAfterPacman(x.f).value))
            && (e.None? && ErrorAfterPacman(x.f).None? ==> end == Go)
  {
    ExecShape(x);
    NothingEnds(x);
    AfterPacmanEnd(x);
    hide Walk, ErrorAfterPacman;
    assert QUERIES == [CheckUpdates] + ([AurQuery] + ([ManifestBefore] + []));
    EndOf(ManifestBefore, [], x);
    EndOf(AurQuery, [ManifestBefore] + [], x);
    EndOf(CheckUpdates, [AurQuery] + ([ManifestBefore] + []), x);
  }

  lemma AfterPacmanEnd(x: Scenario)
    ensures Walk(AFTER_PACMAN, x).end
            == if ErrorAfterPacman(x.f).Some? then Escape(ErrorAfterPacman(x.f).value) else Go
  {
    ReportEnd(x);
    hide Walk, ReportError;
    var late := [ManifestAfter, ManifestDiff, PacnewList, RecordWrite];
    assert AFTER_PACMAN == [SnapshotProbe] + ([SnapperList] + ([ParuUpgrade] + late));
    EndOf(ParuUpgrade, late, x);
    EndOf(SnapperList, [ParuUpgrade] + late, x);
    EndOf(SnapshotProbe, [SnapperList] + ([ParuUpgrade] + late), x);
  }

  lemma ReportEnd(x: Scenario)
    ensures Walk([ManifestAfter, ManifestDiff, PacnewList, RecordWrite], x).end
            == if ReportError(x.f).Some? then Escape(ReportError(x.f).value) else Go
  {
    NothingEnds(x);
    hide Walk;
    var late := [PacnewList] + ([RecordWrite] + []);
    assert [ManifestAfter, ManifestDiff, PacnewList, RecordWrite] == [ManifestAfter] + ([ManifestDiff] + late);
    EndOf(RecordWrite, [], x);
    EndOf(PacnewList, [RecordWrite] + [], x);
    EndOf(ManifestDiff, late, x);
    EndOf(ManifestAfter, [ManifestDiff] + late, x);
  }

  // ----- calls and database -----

  lemma CallsFrom(c: Call, rest: seq<Call>, x: Scenario)
    requires Applies(c, x)
    ensures Walk([c] + rest, x).calls == if Judge(c, x) == Go then [c] + Walk(rest, x).calls else [c]
  {
    assert ([c] + rest)[1..] == rest;
  }

  /** The probes are made in this order, up to the first one that fails. */
  lemma ProbesInOrder(x: Scenario)
    ensures PreHook(x).calls == Seen(
              if !x.f.pacmanFound then [ProbePacman]
              else if !x.f.paruFound then [ProbePacman, ProbeParu]
              else if !x.f.checkupdatesFound then [ProbePacman, ProbeParu, ProbeCheckupdates]
              else [ProbePacman, ProbeParu, ProbeCheckupdates, ProbeTerminal], x.shown)
  {
    NothingEnds(x);
    hide Seen, Walk;
    var last, later := [ProbeTerminal] + [], [ProbeCheckupdates] + ([ProbeTerminal] + []);
    assert PRE_CHECK == [ProbePacman] + ([ProbeParu] + later);
    CallsFrom(ProbeTerminal, [], x);
    CallsFrom(ProbeCheckupdates, last, x);
    CallsFrom(ProbeParu, later, x);
    CallsFrom(ProbePacman, [ProbeParu] + later, x);
    assert Walk(last, x).calls == [ProbeTerminal];
    assert Walk(later, x).calls
           == if x.f.checkupdatesFound then [ProbeCheckupdates, ProbeTerminal] else [ProbeCheckupdates];
    if x.f.pacmanFound && x.f.paruFound && x.f.checkupdatesFound {
      assert Walk(PRE_CHECK, x).calls == [ProbePacman, ProbeParu, ProbeCheckupdates, ProbeTerminal];
    } else if x.f.pacmanFound && x.f.paruFound {
      assert Walk(PRE_CHECK, x).calls == [ProbePacman, ProbeParu, ProbeCheckupdates];
    } else if x.f.pacmanFound {
      assert Walk(PRE_CHECK, x).calls == [ProbePacman, ProbeParu];
    }
  }

  /** The gates let the run through, and the two questions before the backup were
      answered. */
  predicate ReachesBackup(x: Scenario) {
    GateResult(x).None? && x.f.aur.Returns? && x.f.manifestBefore.Returns?
  }

  /** The user is told about a run exactly when its work returned a result: the
      upgrade went through, or its backup was refused. */
  lemma AnnouncedIff(x: Scenario)
    ensures Made(RunLog(x), Notify) <==>
              && x.hasNotifier && ReachesBackup(x)
              && (x.f.backup.OsError? || (ErrorUpToPacman(x.f).None? && ErrorAfterPacman(x.f).None?))
  {
    ReachedByTable(x);
    AnnouncedByEnding(x);
  }

  lemma ReachedByTable(x: Scenario)
    ensures Secured(x) <==> ReachesBackup(x) && x.f.backup == Copied
    ensures BackupRefused(x) <==> ReachesBackup(x) && x.f.backup.OsError?
    ensures Completed(x) <==> ReachesBackup(x) && ErrorUpToPacman(x.f).None? && ErrorAfterPacman(x.f).None?
  {
    hide Walk, Judge, GateResult, Entered;
    EnteredByTable(x);
    SecuredIff(x);
  }

  lemma AnnouncedByEnding(x: Scenario)
    ensures Made(RunLog(x), Notify) <==> x.hasNotifier && (Completed(x) || BackupRefused(x))
  {
    hide HooksOf, Walk, Judge, Replay, RunLog, Tail, Completed, BackupRefused, GateSegments;
    LogSplit(x);
    GatesAreCalm(x);
    if Entered(x) {
      UpgradeEnds(x);
      AnnouncedInside(x);
      EnteredShape(x);
    } else {
      BlockedShape(x);
      NotEntered(x);
    }
  }

  lemma NotEntered(x: Scenario)
    requires !Entered(x)
    ensures !Completed(x) && !BackupRefused(x)
  {
  }

  lemma AnnouncedInside(x: Scenario)
    requires Entered(x)
    ensures Made(Upgrade(x), Notify) <==> x.hasNotifier && !Walk(UPGRADE, Gated(x)).end.Escape?
  {
    hide Walk, Judge, Seen, Upgraded;
    WalkWithin(UPGRADE, Gated(x));
    MadeSeen(Walk(UPGRADE, Gated(x)).calls, Notify, x.shown);
    MadeSeen(PostCalls(x, true), Notify, x.shown);
    MadeSeen(PostCalls(x, false), Notify, x.shown);
  }

  /** The AUR upgrade is started, once pacman was. */
  predicate ParuStarts(f: Faults) {
    Yes(f.pacman) && f.tooling.Returns? && (f.tooling.value ==> f.snapshot.Returns?)
  }

  /** The database as the work leaves it is the one that the last of the two
      package managers to start left behind. */
  function DatabaseLeft(x: Scenario): SyncDb {
    if !ReachesBackup(x) || x.f.backup != Copied then x.start.sync
    else if ParuStarts(x.f) then x.f.paruLeaves
    else x.f.pacmanLeaves
  }

  lemma DatabaseLeftByWork(x: Scenario)
    ensures Replay(Tried(TriedHooks(x)), x).sync == DatabaseLeft(x)
  {
    hide Walk, Judge, Replay, TriedHooks, Segment, Seen, BeforePacman, GateResult, Secured, BehindPacman, ParuStarts;
    EnteredByTable(x);
    SecuredIff(x);
    var tried := Tried(TriedHooks(x));
    if Secured(x) {
      var rest := SecuredShape(x);
      var done, calls, post := BeforePacman(x), BehindPacman(Gated(x)), Segment(TriedHooks(x), PostExecute);
      var behind := done + [LogEntry.Call(PacmanUpgrade, false)];
      ReplaySnoc(done, LogEntry.Call(PacmanUpgrade, false), x);
      FollowUpIsCalm(x);
      ParuLeaves(behind, x);
      SyncUntouched(behind + Seen(calls, x.shown), post, x);
      assert tried == behind + Seen(calls, x.shown) + post;
    } else {
      NoPacman(x);
      SyncUntouched([], tried, x);
      ReplayNothing(x);
      assert [] + tried == tried;
    }
  }

  lemma EnteredByTable(x: Scenario)
    ensures Entered(x) <==> GateResult(x) == None
  {
    hide Walk, Judge, Seen, NewsResult;
    ProbesIff(x);
    if ProbesPass(x.f) { GatesEnd(x); }
  }

  lemma ParuLeaves(past: Log, x: Scenario)
    ensures Replay(past + Seen(BehindPacman(Gated(x)), x.shown), x).sync
            == if ParuStarts(x.f) then x.f.paruLeaves else Replay(past, x).sync
  {
    hide Walk, Judge, Replay, Seen;
    var g, s, e := Gated(x), x.shown, LogEntry.Call(ParuUpgrade, false);
    var a, b := ParuShape(g);
    SeenLacks(a, WRITERS, s);
    SeenLacks(b, WRITERS, s);
    SyncUntouched(past, Seen(a, s), x);
    if ParuStarts(x.f) {
      ReplaySnoc(past + Seen(a, s), e, x);
      SyncUntouched(past + Seen(a, s) + [e], Seen(b, s), x);
      ParuSeen(a, b, s);
      assert past + (Seen(a, s) + [e] + Seen(b, s)) == past + Seen(a, s) + [e] + Seen(b, s);
    }
  }

  lemma ParuSeen(a: seq<Call>, b: seq<Call>, s: Shown)
    ensures Seen(a + [ParuUpgrade] + b, s) == Seen(a, s) + [LogEntry.Call(ParuUpgrade, false)] + Seen(b, s)
  {
  }

  lemma ParuShape(x: Scenario) returns (a: seq<Call>, b: seq<Call>)
    ensures BehindPacman(x) == if ParuStarts(x.f) then a + [ParuUpgrade] + b else a
    ensures forall c <- a + b :: c !in WRITERS
  {
    hide Walk;
    var first, late := [SnapshotProbe, SnapperList], [ManifestAfter, ManifestDiff, PacnewList, RecordWrite];
    a, b := [], [];
    if Judge(PacmanUpgrade, x) == Go {
      assert AFTER_PACMAN == first + ([ParuUpgrade] + late);
      WalkSplit(first, [ParuUpgrade] + late, x);
      CallsFrom(ParuUpgrade, late, x);
      WalkWithin(first, x);
      WalkWithin(late, x);
      SnapshotEnd(x);
      a := Walk(first, x).calls;
      if ParuStarts(x.f) && Judge(ParuUpgrade, x) == Go { b := Walk(late, x).calls; }
      if ParuStarts(x.f) { assert a + ([ParuUpgrade] + b) == a + [ParuUpgrade] + b; }
    }
  }

  lemma SnapshotEnd(x: Scenario)
    ensures Walk([SnapshotProbe, SnapperList], x).end == Go
            <==> x.f.tooling.Returns? && (x.f.tooling.value ==> x.f.snapshot.Returns?)
  {
    NothingEnds(x);
    hide Walk;
    assert [SnapshotProbe, SnapperList] == [SnapshotProbe] + ([SnapperList] + []);
    EndOf(SnapperList, [], x);
    EndOf(SnapshotProbe, [SnapperList] + [], x);
  }

  /** The world that every run leaves: the database, the backup it holds, and the
      recorded prompt time. */
  lemma EveryWorld(x: Scenario)
    ensures var w := Replay(RunLog(x), x);
            && w.backup == (if ReachesBackup(x) && x.f.backup == Copied then Some(x.start.sync) else x.start.backup)
            && w.lastPrompt == (if Made(RunLog(x), NewsConfirm) && x.f.answer.Returns? && x.hasState
                                then Some(x.f.answeredAt) else x.start.lastPrompt)
            && w.sync == if Result(HooksOf(x)).status == FAILURE && !(ReachesBackup(x) && x.f.backup.OsError?)
                            && w.backup.Some?
                         then RestoredSync(DatabaseLeft(x), w.backup.value, x.f.restore)
                         else DatabaseLeft(x)
  {
    hide Walk, Judge, Replay, TriedHooks, HooksOf, RunLog, RestoredSync, DatabaseLeft, Secured, BackupRefused, Made,
         ReachesBackup;
    ReachedByTable(x);
    FinalWorld(x);
    BackupAtRescue(x);
    DatabaseLeftByWork(x);
    OutcomeTable(x);
    NewsPrompt(x);
    EscapedByStatus(x);
  }

  lemma EscapedByStatus(x: Scenario)
    ensures Escaped(TriedHooks(x)).Some? <==> Result(HooksOf(x)).status == FAILURE && !BackupRefused(x)
  {
    hide Walk, Judge, HooksOf, Replay, Seen;
    OutcomeTable(x);
    if BackupRefused(x) { UpgradeOutcome(x); }
  }
}
