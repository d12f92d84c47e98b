/** The system-update task over its collaborators: the shared progress display,
    the shared state, and the host that every external call goes through. */
module SystemUpdate {
  import opened Std
  import opened Models
  import opened Progress
  import opened BaseTask
  import opened UpdateScript

  /** The operating system as the task sees it: the live sync database and the
      log of calls, each with the render's state when it was made. */
  class Host {
    var log: seq<LogEntry<Call>>
    var sync: SyncDb

    constructor (sync: SyncDb)
      ensures log == [] && this.sync == sync
    {
      log, this.sync := [], sync;
    }

    method Note(e: LogEntry<Call>)
      modifies this`log
      ensures log == old(log) + [e]
    {
      log := log + [e];
    }
  }

  /** A hook's script, and the logs of the run and of the host before it. */
  datatype Route = Route(x: Scenario, all: seq<Call>, past: seq<LogEntry<Call>>, log0: seq<LogEntry<Call>>)

  /** How far a hook has followed its script. */
  datatype Trip = Trip(route: Route, done: seq<Call>, k: nat)

  ghost function End(r: Route): Verdict {
    Walk(r.all, r.x).end
  }

  class SystemUpdateTask {
    const settings: Settings
    const progress: RichProgress
    const host: Host
    /** The task's own entry in the shared state book, when there is one. */
    const entry: TaskState?
    const hasNotifier: bool
    var syncDbBackup: Option<SyncDb>
    var snapshotId: Option<nat>
    var manifestBefore: set<string>
    var pendingRepo: Option<seq<string>>
    var startTime: int

    constructor (settings: Settings, progress: RichProgress, host: Host, entry: TaskState?, hasNotifier: bool,
                 backup: Option<SyncDb>)
      ensures this.settings == settings && this.progress == progress && this.host == host
      ensures this.entry == entry && this.hasNotifier == hasNotifier
      ensures syncDbBackup == backup && pendingRepo == None && snapshotId == None
    {
      this.settings, this.progress, this.host, this.entry := settings, progress, host, entry;
      this.hasNotifier, syncDbBackup, pendingRepo := hasNotifier, backup, None;
      snapshotId, manifestBefore, startTime := None, {}, 0;
    }

    /** The part of the state book a run may write to: its entry's prompt time. */
    ghost function Entries(): set<TaskState> {
      if entry == null then {} else {entry}
    }

    ghost function LastPrompt(): Option<int>
      reads entry
    {
      if entry == null then None else entry.lastNewsPrompt
    }

    ghost function Now(): World
      reads this`syncDbBackup, host, entry
    {
      World(host.sync, syncDbBackup, LastPrompt())
    }

    /** The scenario is about this task, fed with these replies. */
    ghost predicate Fits(x: Scenario, f: Faults) {
      x.f == f && x.settings == settings && x.hasState == (entry != null) && x.hasNotifier == hasNotifier
    }

    /** The render as the run finds it, and as the gates' query will leave it. */
    ghost predicate Shows(s: Shown)
      reads progress`live, progress`taskId, this`pendingRepo
    {
      s == Shown(progress.live, pendingRepo.Some? || progress.taskId.Some?)
    }

    // ----- bookkeeping along a script -----

    ghost predicate Along(t: Trip)
      reads this`syncDbBackup, host, entry
    {
      && At(t.route.x, t.route.all, t.done, t.k)
      && host.log == t.route.log0 + Seen(t.done, t.route.x.shown)
      && Now() == Replay(t.route.past + Seen(t.done, t.route.x.shown), t.route.x)
    }

    /** The hook is over: it made exactly its script's calls. */
    ghost predicate Arrived(r: Route)
      reads this`syncDbBackup, host, entry
    {
      && host.log == r.log0 + Seen(Walk(r.all, r.x).calls, r.x.shown)
      && Now() == Replay(r.past + Seen(Walk(r.all, r.x).calls, r.x.shown), r.x)
    }

    /** Call `c` was made and the script goes on to `u`, or ends with its verdict. */
    ghost predicate Moved(t: Trip, c: Call, u: Trip)
      reads this`syncDbBackup, host, entry
    {
      && u == t.(done := t.done + [c], k := t.k + 1)
      && (Judge(c, t.route.x) == Go ==> Along(u))
      && (Judge(c, t.route.x) != Go ==> Arrived(t.route) && End(t.route) == Judge(c, t.route.x))
    }

    ghost predicate Next(t: Trip, c: Call)
      reads this`syncDbBackup, host, entry
    {
      Along(t) && t.k < |t.route.all| && t.route.all[t.k] == c && Applies(c, t.route.x)
    }

    /** The upgrade ended early with this reply. */
    ghost predicate Out(r: Route, reply: Reply<TaskResult<Details>>)
      reads this`syncDbBackup, host, entry
    {
      Arrived(r) && End(r) != Go && reply == Cut(End(r))
    }

    ghost predicate BarUp()
      reads progress
    {
      progress.Valid() && progress.live && progress.taskId.Some?
    }

    lemma Begin(x: Scenario, all: seq<Call>, past: seq<LogEntry<Call>>) returns (t: Trip)
      requires Now() == Replay(past, x)
      ensures t == Trip(Route(x, all, past, host.log), [], 0) && Along(t)
    {
      t := Trip(Route(x, all, past, host.log), [], 0);
      assert Seen([], x.shown) == [] && past + [] == past && host.log + [] == host.log && all[0..] == all;
      assert [] + Walk(all, x).calls == Walk(all, x).calls;
    }

    lemma PassOver(t: Trip) returns (u: Trip)
      requires Along(t) && t.k < |t.route.all| && !Applies(t.route.all[t.k], t.route.x)
      ensures u == t.(k := t.k + 1) && Along(u)
    {
      u := t.(k := t.k + 1);
      StepOver(t.route.x, t.route.all, t.done, t.k);
    }

    lemma Arrive(t: Trip)
      requires Along(t) && t.k == |t.route.all|
      ensures Arrived(t.route) && End(t.route) == Go
    {
      assert t.done + [] == t.done;
    }

    static lemma Behind(a: seq<LogEntry<Call>>, b: seq<LogEntry<Call>>, e: LogEntry<Call>)
      ensures a + (b + [e]) == a + b + [e]
    {
    }

    /** The next call of the script was just logged and had its effect. */
    lemma Follow(t: Trip, c: Call) returns (u: Trip)
      requires At(t.route.x, t.route.all, t.done, t.k) && t.k < |t.route.all|
      requires t.route.all[t.k] == c && Applies(c, t.route.x)
      requires host.log == t.route.log0 + Seen(t.done, t.route.x.shown) + [LogEntry.Call(c, LiveDuring(c, t.route.x.shown))]
      requires Now() == Effect(LogEntry.Call(c, LiveDuring(c, t.route.x.shown)), t.route.x,
                               Replay(t.route.past + Seen(t.done, t.route.x.shown), t.route.x))
      ensures Moved(t, c, u)
    {
      u := t.(done := t.done + [c], k := t.k + 1);
      var e, r := LogEntry.Call(c, LiveDuring(c, t.route.x.shown)), t.route;
      hide Seen, Effect, Replay, Walk, Judge, Applies;
      SeenSnoc(t.done, c, r.x.shown);
      ReplaySnoc(r.past + Seen(t.done, t.route.x.shown), e, r.x);
      Behind(r.past, Seen(t.done, t.route.x.shown), e);
      Behind(r.log0, Seen(t.done, t.route.x.shown), e);
      if Judge(c, r.x) == Go { StepGo(r.x, r.all, t.done, t.k); }
    }

    /** A call that may replace the live sync database. */
    method Make(c: Call, leaves: SyncDb, ghost t: Trip) returns (ghost u: Trip)
      requires Next(t, c) && progress.live == LiveDuring(c, t.route.x.shown) && c !in {SyncBackup, SyncRestore, NewsConfirm}
      requires leaves == SyncLeft(c, t.route.x, host.sync)
      modifies host
      ensures host.sync == leaves && Moved(t, c, u)
    {
      host.Note(LogEntry.Call(c, progress.live));
      host.sync := leaves;
      u := Follow(t, c);
    }

    /** A call that changes nothing. */
    method Ask(c: Call, ghost t: Trip) returns (ghost u: Trip)
      requires Next(t, c) && progress.live == LiveDuring(c, t.route.x.shown)
      requires c !in {SyncBackup, PacmanUpgrade, ParuUpgrade, SyncRestore, NewsConfirm}
      modifies host
      ensures host.sync == old(host.sync) && Moved(t, c, u)
    {
      u := Make(c, host.sync, t);
    }

    /** A command that owns the terminal, with the bar paused around it. */
    method Paused(c: Call, leaves: SyncDb, ghost t: Trip) returns (ghost u: Trip)
      requires BarUp() && Next(t, c) && c in {PacmanUpgrade, SnapperList, ParuUpgrade}
      requires leaves == SyncLeft(c, t.route.x, host.sync)
      modifies host, progress
      ensures BarUp() && host.sync == leaves && Moved(t, c, u)
    {
      progress.PauseEnter();
      u := Make(c, leaves, t);
      progress.PauseExit();
    }

    /** A query under its own spinner, inside the showing bar. */
    method Spun(c: Call, ghost t: Trip) returns (ghost u: Trip)
      requires BarUp() && Next(t, c) && c == AurQuery
      modifies host, progress
      ensures BarUp() && Moved(t, c, u)
    {
      var row, wasShowing := progress.SpinnerEnter();
      u := Ask(c, t);
      progress.SpinnerExit(row, wasShowing);
    }

    method ReportProgress()
      requires BarUp()
      modifies progress
      ensures BarUp()
    {
      progress.Advance();
    }

    // ----- pre_check and should_run -----

    method Probes(f: Faults, ghost t: Trip) returns (ok: bool)
      requires Fits(t.route.x, f) && progress.live == t.route.x.shown.before && Along(t) && t.route.all == PRE_CHECK && t.k == 0
      modifies host
      ensures Arrived(t.route) && ok == (End(t.route) == Go)
    {
      hide Walk, Seen, Replay, At, Along, Arrived, Effect;
      ghost var u := Ask(ProbePacman, t);
      if !f.pacmanFound { return false; }
      u := Ask(ProbeParu, u);
      if !f.paruFound { return false; }
      u := Ask(ProbeCheckupdates, u);
      if !f.checkupdatesFound { return false; }
      u := Ask(ProbeTerminal, u);
      if !f.terminal { return false; }
      Arrive(u);
      return true;
    }

    method PreCheck(f: Faults, ghost x: Scenario, ghost past: seq<LogEntry<Call>>) returns (ok: bool)
      requires progress.Valid() && Fits(x, f) && progress.live == x.shown.before && Now() == Replay(past, x)
      modifies host
      ensures progress.Valid() && PreHook(x).reply == Returns(ok)
      ensures host.log == old(host.log) + PreHook(x).calls
      ensures Now() == Replay(past + PreHook(x).calls, x)
    {
      ghost var t := Begin(x, PRE_CHECK, past);
      ok := Probes(f, t);
    }

    method PendingRepoUpdates(f: Faults, ghost t: Trip) returns (r: Reply<seq<string>>, ghost u: Trip)
      requires progress.Valid() && Fits(t.route.x, f) && Along(t) && t.route.x.pending == pendingRepo
      requires t.k < |t.route.all| && t.route.all[t.k] == CheckUpdates
      modifies host, this`pendingRepo, progress
      ensures progress.Valid() && progress.taskId == old(progress.taskId)
      ensures progress.live == (old(progress.live) && (t.route.x.pending.Some? || old(progress.taskId).Some?))
      ensures r == PendingRepo(t.route.x) && pendingRepo == (if r.Returns? then Some(r.value) else None)
      ensures host.sync == old(host.sync)
      ensures r.Returns? ==> Along(u) && u == t.(done := u.done, k := t.k + 1)
      ensures r.Raises? ==> Arrived(t.route) && End(t.route) == Escape(r.error)
    {
      hide Walk, Seen, Replay, At, Along, Arrived, Effect;
      if pendingRepo.Some? {
        u := PassOver(t);
        return Returns(pendingRepo.value), u;
      }
      var row, wasShowing := progress.SpinnerEnter();
      u := Ask(CheckUpdates, t);
      progress.SpinnerExit(row, wasShowing);
      if f.updates.Returns? { pendingRepo := Some(f.updates.value); }
      r := f.updates;
    }

    predicate ShouldSkipPrompt(f: Faults)
      reads entry
    {
      && entry != null
      && entry.lastNewsPrompt.Some?
      && f.newsCheckedAt - entry.lastNewsPrompt.value < settings.cooldownMinutes * MINUTE
    }

    /** Shows the prompt and, once it is answered either way, records it. */
    method Confirm(f: Faults, ghost t: Trip) returns (ghost u: Trip)
      requires Fits(t.route.x, f) && Next(t, NewsConfirm) && progress.live == t.route.x.shown.After()
      modifies host, Entries()`lastNewsPrompt
      ensures host.sync == old(host.sync) && Moved(t, NewsConfirm, u)
    {
      host.Note(LogEntry.Call(NewsConfirm, progress.live));
      if f.answer.Returns? && entry != null { entry.lastNewsPrompt := Some(f.answeredAt); }
      u := Follow(t, NewsConfirm);
    }

    /** Gate 4: unread news, asked about at most once per cooldown. */
    method HandleUnreadNews(f: Faults, ghost t: Trip) returns (r: Reply<Gate>)
      requires Fits(t.route.x, f) && Along(t) && progress.live == t.route.x.shown.After()
      requires t.route.all == GATES && t.k == 3 && !TooFew(t.route.x)
      requires ShouldSkipPrompt(f) == InCooldown(t.route.x)
      modifies host, Entries()`lastNewsPrompt
      ensures Arrived(t.route) && r == GateReply(t.route.x, End(t.route))
    {
      hide Walk, Seen, Replay, At, Along, Arrived, Effect;
      ghost var u := Ask(NewsQuery, t);
      if f.unread.Raises? { return Raises(f.unread.error); }
      var skip := ShouldSkipPrompt(f);
      if !f.unread.value || skip {
        u := PassOver(u);
        u := PassOver(u);
        Arrive(u);
        return Returns(Proceed);
      }
      u := Ask(Headlines, u);
      if f.headlines.Raises? { return Raises(f.headlines.error); }
      u := Confirm(f, u);
      if f.answer.Raises? { return Raises(f.answer.error); }
      if !f.answer.value { return Returns(Skip(Some(USER_CANCELLED))); }
      Arrive(u);
      return Returns(Proceed);
    }

    /** Gate 1: an old mirrorlist. */
    method MirrorlistGate(f: Faults, ghost t: Trip) returns (r: Option<Reply<Gate>>, ghost u: Trip)
      requires Fits(t.route.x, f) && Next(t, ReadMirrorlist) && progress.live == t.route.x.shown.before
      modifies host
      ensures host.sync == old(host.sync)
      ensures r == None ==> Along(u) && u == t.(done := u.done, k := t.k + 1)
      ensures r.Some? ==> Arrived(t.route) && r.value == GateReply(t.route.x, End(t.route))
      ensures r.Some? ==> r.value != Returns(Proceed)
    {
      hide Walk, Seen, Replay, At, Along, Arrived, Effect;
      u := Ask(ReadMirrorlist, t);
      if f.mirrorlist.Raises? { return Some(Raises(f.mirrorlist.error)), u; }
      var mtime := f.mirrorlist.value;
      if mtime.Some? && (f.mirrorlistCheckedAt - mtime.value) / DAY > settings.staleDays {
        return Some(Returns(Skip(Some(MIRRORLIST_STALE)))), u;
      }
      return None, u;
    }

    /** Gates 3 and 4: a pending reboot, and the news. */
    method LaterGates(f: Faults, ghost t: Trip) returns (r: Reply<Gate>)
      requires Fits(t.route.x, f) && Along(t) && progress.live == t.route.x.shown.After()
      requires t.route.all == GATES && t.k == 2 && !TooFew(t.route.x)
      requires t.route.x.start.lastPrompt == LastPrompt()
      modifies host, Entries()`lastNewsPrompt
      ensures Arrived(t.route) && r == GateReply(t.route.x, End(t.route))
    {
      hide Walk, Seen, Replay, At, Along, Arrived, Effect, Now;
      ghost var u := Ask(KernelProbe, t);
      if f.reboot.Raises? { return Raises(f.reboot.error); }
      if f.reboot.value { return Returns(Skip(Some(REBOOT_REQUIRED))); }
      r := HandleUnreadNews(f, u);
    }

    method Gates(f: Faults, ghost t: Trip) returns (r: Reply<Gate>)
      requires progress.Valid() && Fits(t.route.x, f) && Shows(t.route.x.shown) && Along(t)
      requires t.route.all == GateScript(t.route.x) && t.k == 0
      requires t.route.x.pending == pendingRepo && t.route.x.start.lastPrompt == LastPrompt()
      modifies host, this`pendingRepo, progress, Entries()`lastNewsPrompt
      ensures progress.Valid()
      ensures Arrived(t.route) && r == GateReply(t.route.x, End(t.route))
      ensures r == Returns(Proceed) ==> pendingRepo == Gated(t.route.x).pending
    {
      hide Walk, Seen, Replay, At, Along, Arrived, Effect, Now, RichProgress.Valid;
      var stale;
      ghost var u;
      stale, u := MirrorlistGate(f, t);
      if stale.Some? { return stale.value; }
      var repo;
      repo, u := PendingRepoUpdates(f, u);
      if repo.Raises? { return Raises(repo.error); }
      if |repo.value| < settings.threshold {
        Arrive(u);
        return Returns(Skip(Some(NO_WORK_NEEDED)));
      }
      r := LaterGates(f, u);
    }

    method ShouldRun(f: Faults, ghost x: Scenario, ghost past: seq<LogEntry<Call>>) returns (r: Reply<Gate>)
      requires progress.Valid() && Fits(x, f) && Shows(x.shown) && Now() == Replay(past, x)
      requires x.pending == pendingRepo && x.start.lastPrompt == LastPrompt()
      modifies host, this`pendingRepo, progress, Entries()`lastNewsPrompt
      ensures progress.Valid() && r == GateHook(x).reply
      ensures r == Returns(Proceed) ==> pendingRepo == Gated(x).pending
      ensures host.log == old(host.log) + GateHook(x).calls
      ensures Now() == Replay(past + GateHook(x).calls, x)
    {
      ghost var t := Begin(x, GateScript(x), past);
      r := Gates(f, t);
    }

    // ----- execute -----

    /** Copies the sync database; only a finished copy is held as the backup. */
    method Copy(f: Faults, ghost t: Trip) returns (ghost u: Trip)
      requires Fits(t.route.x, f) && Next(t, SyncBackup) && !progress.live
      modifies host`log, this`syncDbBackup
      ensures Moved(t, SyncBackup, u)
    {
      hide Walk, Seen, Replay, At, Judge;
      host.Note(LogEntry.Call(SyncBackup, progress.live));
      if f.backup == Copied { syncDbBackup := Some(host.sync); }
      u := Follow(t, SyncBackup);
    }

    /** The sync-db backup; an `OSError` ends the run with a failure result,
        before any transaction. */
    method BackUp(f: Faults, ghost t: Trip) returns (r: Option<Reply<TaskResult<Details>>>, ghost u: Trip)
      requires BarUp() && Fits(t.route.x, f) && Next(t, SyncBackup)
      modifies host, this`syncDbBackup, progress
      ensures BarUp()
      ensures r == None ==> Along(u) && u == t.(done := u.done, k := t.k + 1)
      ensures r.Some? ==> Out(t.route, r.value)
    {
      hide Walk, Seen, Replay, At, Along, Arrived, Effect, Now, RichProgress.Valid;
      progress.PauseEnter();
      u := Copy(f, t);
      progress.PauseExit();
      match f.backup {
        case OsError(e) => return Some(Returns(Failed(e))), u;
        case OtherError(e) => return Some(Raises(e)), u;
        case Copied => return None, u;
      }
    }

    /** Phases 1 to 4, up to the safety net: nothing has been changed yet. */
    method Prepare(f: Faults, ghost t: Trip) returns (r: Option<Reply<TaskResult<Details>>>, ghost u: Trip)
      requires BarUp() && Fits(t.route.x, f) && Along(t) && t.route.all == UPGRADE && t.k == 0
      requires t.route.x.pending == pendingRepo
      modifies host, this`pendingRepo, this`manifestBefore, this`syncDbBackup, progress
      ensures BarUp()
      ensures r == None ==> Along(u) && u == t.(done := u.done, k := 4) && f.manifestBefore == Returns(manifestBefore)
      ensures r == None ==> PendingRepo(t.route.x).Returns? && pendingRepo == Some(PendingRepo(t.route.x).value)
      ensures r.Some? ==> Out(t.route, r.value)
    {
      hide Walk, Seen, Replay, At, Along, Arrived, Effect, Now, RichProgress.Valid;
      var repo;
      repo, u := PendingRepoUpdates(f, t);
      if repo.Raises? { return Some(Raises(repo.error)), u; }
      u := Spun(AurQuery, u);
      if f.aur.Raises? { return Some(Raises(f.aur.error)), u; }
      r, u := SecureManifestAndSyncDb(f, u);
    }

    /** Phases 3 and 4: the manifest and the sync-db backup. */
    method SecureManifestAndSyncDb(f: Faults, ghost t: Trip)
      returns (r: Option<Reply<TaskResult<Details>>>, ghost u: Trip)
      requires BarUp() && Fits(t.route.x, f) && Along(t) && t.route.all == UPGRADE && t.k == 2
      modifies host, this`manifestBefore, this`syncDbBackup, progress
      ensures BarUp()
      ensures r == None ==> Along(u) && u == t.(done := u.done, k := 4) && f.manifestBefore == Returns(manifestBefore)
      ensures r.Some? ==> Out(t.route, r.value)
    {
      hide Walk, Seen, Replay, At, Along, Arrived, Effect, Now, RichProgress.Valid;
      u := Ask(ManifestBefore, t);
      if f.manifestBefore.Raises? { return Some(Raises(f.manifestBefore.error)), u; }
      manifestBefore := f.manifestBefore.value;
      ReportProgress();
      r, u := BackUp(f, u);
      if r.Some? { return; }
    }

    /** Phase 6: the snapshot id, when the tooling is there. */
    method RecordSnapshot(f: Faults, ghost t: Trip) returns (r: Option<Reply<TaskResult<Details>>>, ghost u: Trip)
      requires BarUp() && Fits(t.route.x, f) && Along(t) && t.route.all == UPGRADE && t.k == 5
      requires t.route.x.snapshotBefore == snapshotId
      modifies host, this`snapshotId, progress
      ensures BarUp()
      ensures r == None ==> Along(u) && u == t.(done := u.done, k := 7)
      ensures r == None ==> f.tooling.Returns? && (f.tooling.value ==> f.snapshot.Returns?)
      ensures r == None ==> snapshotId == (if f.tooling.value then f.snapshot.value else t.route.x.snapshotBefore)
      ensures r.Some? ==> Out(t.route, r.value)
    {
      hide Walk, Seen, Replay, At, Along, Arrived, Effect, Now, RichProgress.Valid;
      u := Ask(SnapshotProbe, t);
      if f.tooling.Raises? { return Some(Raises(f.tooling.error)), u; }
      if f.tooling.value {
        u := Paused(SnapperList, host.sync, u);
        if f.snapshot.Raises? { return Some(Raises(f.snapshot.error)), u; }
        snapshotId := f.snapshot.value;
      } else {
        u := PassOver(u);
      }
      ReportProgress();
      r := None;
    }

    /** Phases 5 to 9: the transaction and its report. */
    method Transact(f: Faults, ghost t: Trip) returns (r: Option<Reply<TaskResult<Details>>>)
      requires BarUp() && Fits(t.route.x, f) && Along(t) && t.route.all == UPGRADE && t.k == 4
      requires t.route.x.snapshotBefore == snapshotId
      modifies host, this`snapshotId, progress
      ensures BarUp()
      ensures r == None ==> Arrived(t.route) && End(t.route) == Go
      ensures r == None ==> f.tooling.Returns? && (f.tooling.value ==> f.snapshot.Returns?)
      ensures r == None ==> snapshotId == (if f.tooling.value then f.snapshot.value else t.route.x.snapshotBefore)
      ensures r.Some? ==> Out(t.route, r.value)
    {
      hide Walk, Seen, Replay, At, Along, Arrived, Effect, Now, RichProgress.Valid;
      ReportProgress();
      ghost var u := Paused(PacmanUpgrade, f.pacmanLeaves, t);
      if f.pacman.Raises? { return Some(Raises(f.pacman.error)); }
      if !f.pacman.value { return Some(Raises(PACMAN_FAILED)); }
      ReportProgress();
      r, u := RecordSnapshot(f, u);
      if r.Some? { return; }
      u := Paused(ParuUpgrade, f.paruLeaves, u);
      if f.paru.Raises? { return Some(Raises(f.paru.error)); }
      ReportProgress();
      r := Report(f, u);
    }

    /** Phases 8 and 9, from the second manifest and its diff on. */
    method Report(f: Faults, ghost t: Trip) returns (r: Option<Reply<TaskResult<Details>>>)
      requires BarUp() && Fits(t.route.x, f) && Along(t) && t.route.all == UPGRADE && t.k == 8
      modifies host, progress
      ensures BarUp()
      ensures r == None ==> Arrived(t.route) && End(t.route) == Go
      ensures r.Some? ==> Out(t.route, r.value)
    {
      hide Walk, Seen, Replay, At, Along, Arrived, Effect, Now, RichProgress.Valid;
      ghost var u := Ask(ManifestAfter, t);
      if f.manifestAfter.Raises? { return Some(Raises(f.manifestAfter.error)); }
      u := Ask(ManifestDiff, u);
      if f.diff.Raises? { return Some(Raises(f.diff.error)); }
      ReportProgress();
      r := WriteReport(f, u);
    }

    /** Phase 9: the `.pacnew` files and the recovery record. */
    method WriteReport(f: Faults, ghost t: Trip) returns (r: Option<Reply<TaskResult<Details>>>)
      requires BarUp() && Fits(t.route.x, f) && Along(t) && t.route.all == UPGRADE && t.k == 10
      modifies host, progress
      ensures BarUp()
      ensures r == None ==> Arrived(t.route) && End(t.route) == Go
      ensures r.Some? ==> Out(t.route, r.value)
    {
      hide Walk, Seen, Replay, At, Along, Arrived, Effect, Now, RichProgress.Valid;
      ghost var u := Ask(PacnewList, t);
      if f.pacnew.Raises? { return Some(Raises(f.pacnew.error)); }
      u := Ask(RecordWrite, u);
      if f.record.Raises? { return Some(Raises(f.record.error)); }
      ReportProgress();
      Arrive(u);
      r := None;
    }

    method Execute(f: Faults, ghost x: Scenario, ghost past: seq<LogEntry<Call>>)
      returns (r: Reply<TaskResult<Details>>)
      requires progress.Valid() && Fits(x, f) && Now() == Replay(past, x)
      requires x.pending == pendingRepo && x.snapshotBefore == snapshotId
      modifies host, this`pendingRepo, this`manifestBefore, this`syncDbBackup, this`snapshotId, progress
      ensures progress.Valid() && r == ExecHook(x).reply
      ensures r.Returns? ==> progress.live
      ensures host.log == old(host.log) + ExecHook(x).calls
      ensures Now() == Replay(past + ExecHook(x).calls, x)
    {
      progress.Start();
      ghost var t := Begin(x, UPGRADE, past);
      var cut;
      ghost var u;
      cut, u := Prepare(f, t);
      if cut.Some? { return cut.value; }
      cut := Transact(f, u);
      if cut.Some? { return cut.value; }
      UpgradeReplies(x);
      var details := BuildDetails(pendingRepo.value, f.aur.value, f.paru.value,
                                  manifestBefore - f.manifestAfter.value, f.pacnew.value);
      if !f.paru.value { return Returns(Partial(details)); }
      return Returns(Success(details));
    }

    function BuildDetails(repo: seq<string>, aur: seq<string>, aurOk: bool, removed: set<string>,
                          pacnew: seq<string>): Details
      reads this`snapshotId
    {
      Details(repo, if aurOk then aur else [], if aurOk then [] else aur, removed, pacnew, snapshotId, None)
    }

    // ----- post_execute and rollback -----

    /** Prunes the cache after a full success; a failure is logged and dropped. */
    method PrunePackageCache(f: Faults, result: TaskResult<Details>) returns (r: TaskResult<Details>)
      requires progress.Valid() && progress.live
      modifies host, progress
      ensures progress.Valid() && progress.live && host.sync == old(host.sync)
      ensures host.log == old(host.log) + [LogEntry.Call(Paccache, false)]
      ensures r == if result.details.Some? && f.paccache.Returns?
                   then result.(details := Some(result.details.value.(cacheFreed := Some(f.paccache.value))))
                   else result
    {
      progress.PauseEnter();
      host.Note(LogEntry.Call(Paccache, progress.live));
      progress.PauseExit();
      if f.paccache.Raises? || result.details.None? { return result; }
      r := result.(details := Some(result.details.value.(cacheFreed := Some(f.paccache.value))));
    }

    /** Calls the notifier, when there is one; how that ends is its reply. */
    method Notify(f: Faults) returns (r: Reply<()>)
      requires progress.live
      modifies host`log
      ensures host.log == old(host.log) + (if hasNotifier then [LogEntry.Call(Call.Notify, true)] else [])
      ensures r == if hasNotifier then f.notify else Returns(())
    {
      if !hasNotifier { return Returns(()); }
      host.Note(LogEntry.Call(Call.Notify, progress.live));
      r := f.notify;
    }

    /** Tells the user how the run ended; a raising notifier is logged and dropped. */
    method Announce(f: Faults) returns (dropped: Option<string>)
      requires progress.live
      modifies host`log
      ensures host.log == old(host.log) + (if hasNotifier then [LogEntry.Call(Call.Notify, true)] else [])
      ensures dropped == if hasNotifier && f.notify.Raises? then Some(f.notify.error) else None
    {
      var sent := Notify(f);
      if sent.Raises? { return Some(sent.error); }
      return None;
    }

    method PostExecute(f: Faults, result: TaskResult<Details>, ghost x: Scenario, ghost past: seq<LogEntry<Call>>)
      returns (r: Reply<TaskResult<Details>>)
      requires progress.Valid() && progress.live && Fits(x, f) && Now() == Replay(past, x)
      modifies host, progress
      ensures progress.Valid() && r == PostHook(x, result).reply
      ensures host.log == old(host.log) + PostHook(x, result).calls
      ensures Now() == Replay(past + PostHook(x, result).calls, x)
    {
      hide Walk, Seen, Replay;
      var final := result;
      if result.status == SUCCESS {
        final := PrunePackageCache(f, result);
      }
      var _ := Announce(f);
      PostLog(x, result.status == SUCCESS);
      PostReplay(x, result.status == SUCCESS, past);
      r := Returns(final);
    }

    method Rollback(f: Faults, ghost x: Scenario, ghost past: seq<LogEntry<Call>>)
      requires progress.Valid() && Fits(x, f) && Now() == Replay(past, x)
      modifies host, progress
      ensures progress.Valid()
      ensures host.log == old(host.log) + RollbackHook(Replay(past, x)).calls
      ensures Now() == Replay(past + RollbackHook(Replay(past, x)).calls, x)
    {
      hide Walk, Seen, Replay, RestoredSync;
      if syncDbBackup.None? {
        assert past + [] == past;
        return;
      }
      SeenRestore();
      ReplaySnoc(past, LogEntry.Call(SyncRestore, false), x);
      progress.PauseEnter();
      host.Note(LogEntry.Call(SyncRestore, progress.live));
      host.sync := RestoredSync(host.sync, syncDbBackup.value, f.restore);
      progress.PauseExit();
    }

    // ----- run, inherited from the template -----

    method Enter(n: HookName, ghost x: Scenario, ghost past: seq<LogEntry<Call>>)
      requires Now() == Replay(past, x)
      modifies host`log
      ensures host.log == old(host.log) + [Hook(n)]
      ensures Now() == Replay(past + [Hook(n)], x)
    {
      host.Note(Hook(n));
      ReplaySnoc(past, Hook(n), x);
    }

    /** The run logged exactly `tried` so far, with the world it leaves. */
    ghost predicate RanTo(x: Scenario, log0: seq<LogEntry<Call>>, tried: seq<LogEntry<Call>>)
      reads this`syncDbBackup, host, entry
    {
      host.log == log0 + tried && Now() == Replay(tried, x)
    }

    method RunPreCheck(f: Faults, ghost x: Scenario) returns (ok: bool)
      requires progress.Valid() && Fits(x, f) && Shows(x.shown) && x.start == Now()
      modifies host
      ensures progress.Valid() && PreHook(x).reply == Returns(ok)
      ensures RanTo(x, old(host.log), Segment(TriedHooks(x), HookName.PreCheck))
    {
      hide Walk, Seen, Replay, TriedHooks, PreHook;
      ReplayNothing(x);
      PreSegment(x);
      ghost var entered: seq<LogEntry<Call>> := [Hook(HookName.PreCheck)];
      assert [] + entered == entered;
      Enter(HookName.PreCheck, x, []);
      ok := PreCheck(f, x, entered);
    }

    method RunShouldRun(f: Faults, ghost x: Scenario, ghost past: seq<LogEntry<Call>>, ghost log0: seq<LogEntry<Call>>)
      returns (r: Reply<Gate>)
      requires progress.Valid() && Fits(x, f) && Shows(x.shown) && RanTo(x, log0, past)
      requires x.pending == pendingRepo && x.start.lastPrompt == LastPrompt()
      requires Reached(TriedHooks(x), HookName.ShouldRun)
      modifies host, this`pendingRepo, progress, Entries()`lastNewsPrompt
      ensures progress.Valid() && r == GateHook(x).reply
      ensures r == Returns(Proceed) ==> pendingRepo == Gated(x).pending
      ensures RanTo(x, log0, past + Segment(TriedHooks(x), HookName.ShouldRun))
    {
      Enter(HookName.ShouldRun, x, past);
      r := ShouldRun(f, x, past + [Hook(HookName.ShouldRun)]);
      Regroup(log0, past, HookName.ShouldRun, GateHook(x).calls);
    }

    method RunExecute(f: Faults, ghost x: Scenario, ghost past: seq<LogEntry<Call>>, ghost log0: seq<LogEntry<Call>>)
      returns (r: Reply<TaskResult<Details>>)
      requires progress.Valid() && Fits(x, f) && RanTo(x, log0, past)
      requires Gated(x).pending == pendingRepo && x.snapshotBefore == snapshotId
      requires Reached(TriedHooks(x), HookName.Execute)
      modifies host, this`pendingRepo, this`manifestBefore, this`syncDbBackup, this`snapshotId, progress
      ensures progress.Valid() && r == ExecHook(Gated(x)).reply
      ensures r.Returns? ==> progress.live
      ensures RanTo(x, log0, past + Segment(TriedHooks(x), HookName.Execute))
    {
      Enter(HookName.Execute, x, past);
      ReplayGated(past + [Hook(HookName.Execute)], x);
      r := Execute(f, Gated(x), past + [Hook(HookName.Execute)]);
      ReplayGated(past + [Hook(HookName.Execute)] + ExecHook(Gated(x)).calls, x);
      Regroup(log0, past, HookName.Execute, ExecHook(Gated(x)).calls);
    }

    method RunPostExecute(f: Faults, result: TaskResult<Details>, ghost x: Scenario,
                          ghost past: seq<LogEntry<Call>>, ghost log0: seq<LogEntry<Call>>)
      returns (r: Reply<TaskResult<Details>>)
      requires progress.Valid() && progress.live && Fits(x, f) && RanTo(x, log0, past)
      requires Reached(TriedHooks(x), HookName.PostExecute) && ExecHook(Gated(x)).reply == Returns(result)
      modifies host, progress
      ensures progress.Valid() && r == PostHook(x, result).reply
      ensures RanTo(x, log0, past + Segment(TriedHooks(x), HookName.PostExecute))
    {
      Enter(HookName.PostExecute, x, past);
      r := PostExecute(f, result, x, past + [Hook(HookName.PostExecute)]);
      Regroup(log0, past, HookName.PostExecute, PostHook(x, result).calls);
    }

    /** The two gates of the template; `None` lets the run through to the work. */
    method PassGates(f: Faults, endedAt: int, ghost x: Scenario) returns (r: Option<Reply<TaskResult<Details>>>)
      requires progress.Valid() && Shows(x.shown) && Fits(x, f)
      requires x.start == Now() && x.pending == pendingRepo
      modifies host, this`pendingRepo, progress, Entries()`lastNewsPrompt
      ensures progress.Valid()
      ensures r.Some? ==> r.value == Tentative(x, endedAt - startTime)
      ensures r.Some? ==> RanTo(x, old(host.log), Tried(TriedHooks(x)))
      ensures r == None ==> Cleared(TriedHooks(x)) && pendingRepo == Gated(x).pending
      ensures r == None ==> RanTo(x, old(host.log), GateSegments(x))
    {
      hide Walk, Seen, Replay;
      ghost var log0 := host.log;
      var ok := RunPreCheck(f, x);
      if !ok {
        StopsAtPreCheck(x);
        var s := Timed(Skipped(Some(DEPENDENCY_FAILED)), startTime, endedAt);
        return Some(Returns(s));
      }
      var gate := RunShouldRun(f, x, Segment(TriedHooks(x), HookName.PreCheck), log0);
      if gate == Returns(Proceed) { return None; }
      StopsAtGate(x);
      if gate.Raises? { return Some(Raises(gate.error)); }
      var s := Timed(Skipped(gate.value.reason), startTime, endedAt);
      return Some(Returns(s));
    }

    /** The `try` block of the template. */
    method Attempt(f: Faults, endedAt: int, ghost x: Scenario) returns (r: Reply<TaskResult<Details>>)
      requires progress.Valid() && Shows(x.shown) && Fits(x, f)
      requires x.start == Now() && x.pending == pendingRepo && x.snapshotBefore == snapshotId
      modifies host, this`pendingRepo, this`manifestBefore, this`syncDbBackup, this`snapshotId, progress, Entries()`lastNewsPrompt
      ensures progress.Valid() && r == Tentative(x, endedAt - startTime)
      ensures RanTo(x, old(host.log), Tried(TriedHooks(x)))
    {
      hide Walk, Seen, Replay, Judge, Tried;
      ghost var log0 := host.log;
      var blocked := PassGates(f, endedAt, x);
      if blocked.Some? { return blocked.value; }
      r := Work(f, endedAt, x, log0);
    }

    /** The work and its follow-up, behind both gates. */
    method Work(f: Faults, endedAt: int, ghost x: Scenario, ghost log0: seq<LogEntry<Call>>)
      returns (r: Reply<TaskResult<Details>>)
      requires progress.Valid() && Fits(x, f) && RanTo(x, log0, GateSegments(x))
      requires Gated(x).pending == pendingRepo && x.snapshotBefore == snapshotId && Cleared(TriedHooks(x))
      modifies host, this`pendingRepo, this`manifestBefore, this`syncDbBackup, this`snapshotId, progress
      ensures progress.Valid() && r == Tentative(x, endedAt - startTime)
      ensures RanTo(x, log0, Tried(TriedHooks(x)))
    {
      hide Walk, Seen, Replay, Judge;
      ghost var past := GateSegments(x);
      var result := RunExecute(f, x, past, log0);
      past := past + Segment(TriedHooks(x), HookName.Execute);
      if result.Raises? {
        WorkRaised(x);
        return Raises(result.error);
      }
      WorkReturned(x, result.value, endedAt - startTime);
      var final := RunPostExecute(f, result.value, x, past, log0);
      var done := Timed(final.value, startTime, endedAt);
      return Returns(done);
    }

    /** The `except` block of the template. */
    method Rescue(f: Faults, ghost x: Scenario, ghost past: seq<LogEntry<Call>>, ghost log0: seq<LogEntry<Call>>)
      requires progress.Valid() && Fits(x, f) && RanTo(x, log0, past)
      modifies host, progress
      ensures progress.Valid()
      ensures RanTo(x, log0, past + ([Hook(HookName.Rollback)] + RollbackHook(Replay(past, x)).calls))
    {
      Enter(HookName.Rollback, x, past);
      Rollback(f, x, past + [Hook(HookName.Rollback)]);
      ReplaySnoc(past, Hook(HookName.Rollback), x);
      Regroup(log0, past, HookName.Rollback, RollbackHook(Replay(past, x)).calls);
    }

    /** `try` and `except` together. */
    method AttemptOrRescue(f: Faults, endedAt: int, ghost x: Scenario) returns (r: TaskResult<Details>)
      requires progress.Valid() && Shows(x.shown) && Fits(x, f)
      requires x.start == Now() && x.pending == pendingRepo && x.snapshotBefore == snapshotId
      modifies host, this`pendingRepo, this`manifestBefore, this`syncDbBackup, this`snapshotId, progress, Entries()`lastNewsPrompt
      ensures progress.Valid()
      ensures r == Result(HooksOf(x)).(duration := endedAt - startTime)
      ensures RanTo(x, old(host.log), Body(HooksOf(x)))
    {
      hide Walk, Seen, Replay, TriedHooks, HooksOf;
      ghost var tried, log0 := Tried(TriedHooks(x)), host.log;
      SameTried(x);
      SplitBody(x);
      var outcome := Attempt(f, endedAt, x);
      match outcome {
        case Returns(done) =>
          r := done;
        case Raises(error) =>
          Rescue(f, x, tried, log0);
          r := Timed(Failed(error), startTime, endedAt);
      }
    }

    /** The `finally` block of the template. */
    method Finish(ghost x: Scenario, ghost log0: seq<LogEntry<Call>>)
      requires progress.Valid() && RanTo(x, log0, Body(HooksOf(x)))
      modifies host`log, progress
      ensures progress.Valid() && !progress.live && progress.taskId == None
      ensures RanTo(x, log0, Trace(HooksOf(x)))
    {
      hide Walk, Seen, HooksOf, Body;
      progress.Stop();
      host.Note(Closed);
      ReplaySnoc(Body(HooksOf(x)), Closed, x);
    }

    /** One complete run. It leaves a stopped render, whatever it finds. */
    method Run(f: Faults, logging: Reply<()>, startedAt: int, endedAt: int, ghost x: Scenario)
      returns (r: Reply<TaskResult<Details>>)
      requires progress.Valid() && Shows(x.shown) && Fits(x, f)
      requires x.start == Now() && x.pending == pendingRepo && x.snapshotBefore == snapshotId
      modifies host, this, progress, Entries()`lastNewsPrompt
      ensures progress.Valid() && (logging.Returns? ==> !progress.live && progress.taskId == None)
      ensures logging.Raises? ==> r == Raises(logging.error) && host.log == old(host.log) && Now() == old(Now())
      ensures logging.Raises? ==> progress.Value() == old(progress.Value())
      ensures logging.Returns? ==> r == Returns(Result(HooksOf(x)).(duration := endedAt - startedAt))
      ensures logging.Returns? ==> RanTo(x, old(host.log), Trace(HooksOf(x)))
    {
      hide Walk, Seen, Replay, HooksOf, Body, Trace, Result;
      startTime := startedAt;
      if logging.Raises? { return Raises(logging.error); }
      ghost var log0 := host.log;
      var result := AttemptOrRescue(f, endedAt, x);
      Finish(x, log0);
      r := Returns(result);
    }
  }

  /** What the `try` block yields: the timed result, or the escaped exception. */
  function Tentative(x: Scenario, duration: int): Reply<TaskResult<Details>> {
    var h := TriedHooks(x);
    if Escaped(h).Some? then Raises(Escaped(h).value) else Returns(Result(h).(duration := duration))
  }

  lemma SplitBody(x: Scenario)
    ensures Escaped(TriedHooks(x)) == None ==> Body(HooksOf(x)) == Tried(TriedHooks(x))
    ensures Escaped(TriedHooks(x)) != None ==>
              Body(HooksOf(x)) == Tried(TriedHooks(x))
                                  + ([Hook(HookName.Rollback)] + RollbackHook(Replay(Tried(TriedHooks(x)), x)).calls)
  {
    SameTried(x);
  }

  lemma Regroup(log0: seq<LogEntry<Call>>, past: seq<LogEntry<Call>>, n: HookName, calls: seq<LogEntry<Call>>)
    ensures log0 + past + [Hook(n)] + calls == log0 + (past + ([Hook(n)] + calls))
    ensures past + [Hook(n)] + calls == past + ([Hook(n)] + calls)
  {
  }

  lemma WorkRaised(x: Scenario)
    requires Cleared(TriedHooks(x)) && ExecHook(Gated(x)).reply.Raises?
    ensures Tried(TriedHooks(x)) == GateSegments(x) + Segment(TriedHooks(x), HookName.Execute)
    ensures Escaped(TriedHooks(x)) == Some(ExecHook(Gated(x)).reply.error)
  {
  }

  lemma WorkReturned(x: Scenario, result: TaskResult<Details>, duration: int)
    requires Cleared(TriedHooks(x)) && ExecHook(Gated(x)).reply == Returns(result)
    ensures Reached(TriedHooks(x), HookName.PostExecute) && PostHook(x, result).reply.Returns?
    ensures Tried(TriedHooks(x)) == GateSegments(x) + Segment(TriedHooks(x), HookName.Execute)
                                    + Segment(TriedHooks(x), HookName.PostExecute)
    ensures Tentative(x, duration) == Returns(PostHook(x, result).reply.value.(duration := duration))
  {
  }

  lemma StopsAtPreCheck(x: Scenario)
    requires PreHook(x).reply == Returns(false)
    ensures Tried(TriedHooks(x)) == Segment(TriedHooks(x), HookName.PreCheck)
    ensures Result(TriedHooks(x)) == Skipped(Some(DEPENDENCY_FAILED)) && Escaped(TriedHooks(x)) == None
  {
  }

  lemma StopsAtGate(x: Scenario)
    requires PreHook(x).reply == Returns(true) && GateHook(x).reply != Returns(Proceed)
    ensures Tried(TriedHooks(x)) == Segment(TriedHooks(x), HookName.PreCheck) + Segment(TriedHooks(x), HookName.ShouldRun)
    ensures GateHook(x).reply.Raises? ==> Escaped(TriedHooks(x)) == Some(GateHook(x).reply.error)
    ensures GateHook(x).reply.Returns? ==>
              Escaped(TriedHooks(x)) == None && Result(TriedHooks(x)) == Skipped(GateHook(x).reply.value.reason)
  {
  }
}
