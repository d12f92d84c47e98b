/** The mirrorlist-update task: back up, regenerate, validate, or roll back. */
module MirrorlistUpdate {
  import opened Std
  import opened Models
  import opened Progress
  import opened BaseTask
  import opened MirrorlistFile
  import opened StableSort

  /** A file in the backup directory. */
  datatype BackupFile = BackupFile(path: string, mtime: int)

  datatype Call =
    | FindReflector | FindMirrorlist
    | SudoValidate | ReadOld | CopyBackup | Reflector | ReadForValidation | ReadNew
    | ListBackups | DeleteBackups(stale: seq<BackupFile>)
    | FindBackup | CopyRestore

  /** The calls that run under sudo. */
  predicate IsSudo(c: Call) {
    c.SudoValidate? || c.CopyBackup? || c.Reflector? || c.DeleteBackups? || c.CopyRestore?
  }

  /** How a restore copy ends: done, or broken with this in place of the file. */
  datatype RestoreReply = Restored | Broken(leaves: Option<File>)

  /** Every reply of the outside world during one run. Reflector leaves any
      file, or none, whatever it answers; `backupPath` is the path a backup is
      copied to, and `left` what a failing deletion leaves of the backup files. */
  datatype Faults = Faults(
    reflectorFound: bool,
    sudo: Reply<bool>,
    readOld: Reply<()>, statOld: Reply<()>,
    backup: Reply<()>, backupPath: string,
    reflector: Reply<bool>, leaves: Option<File>,
    readForValidation: Reply<()>,
    readNew: Reply<()>, statNew: Reply<()>,
    listing: Reply<seq<BackupFile>>, deletion: Reply<()>, left: multiset<BackupFile>,
    backupThere: Reply<bool>, restore: RestoreReply)

  datatype Details = Details(
    oldMirrors: Option<nat>, newMirrors: Option<nat>, oldInfo: Info, newInfo: Info, backupPath: Option<string>)

  /** One run: the replies, the mirrorlist and the backup files it starts with,
      a backup it already holds, how many backups to keep, and the render it
      finds. */
  datatype Scenario = Scenario(
    f: Faults, start: Option<File>, preset: Option<File>, files: multiset<BackupFile>, retention: nat, shown: Shown)

  /** What a run can change: the mirrorlist, the backup the task holds, and the
      files in the backup directory. */
  datatype World = World(mirrorlist: Option<File>, backup: Option<File>, files: multiset<BackupFile>)

  /** The file that backing up a mirrorlist adds: the copy keeps the time. */
  function BackupOf(f: Faults, mirrorlist: Option<File>): BackupFile {
    BackupFile(f.backupPath, if mirrorlist.Some? then mirrorlist.value.mtime else 0)
  }

  function MadeBackup(x: Scenario): BackupFile {
    BackupOf(x.f, x.start)
  }

  function StartOf(x: Scenario): World {
    World(x.start, x.preset, x.files)
  }

  // ----- the work, as six steps -----

  const STEPS := [SudoValidate, ReadOld, CopyBackup, Reflector, ReadForValidation, ReadNew]

  /** Step `i` went through. */
  predicate Passes(x: Scenario, i: nat) {
    var f := x.f;
    match i
    case 0 => Yes(f.sudo)
    case 1 => x.start.None? || (f.readOld.Returns? && f.statOld.Returns?)
    case 2 => f.backup.Returns?
    case 3 => Yes(f.reflector)
    case 4 => f.leaves.Some? && f.readForValidation.Returns? && Mirrors(f.leaves.value.text) != []
    case _ => f.readNew.Returns? && f.statNew.Returns?
  }

  /** How many steps the work enters: up to the first that does not go through. */
  function Entered(x: Scenario, i: nat := 0): (n: nat)
    requires i < 6
    ensures i < n <= 6 && (forall j | i <= j < n - 1 :: Passes(x, j))
    ensures n < 6 ==> !Passes(x, n - 1)
    decreases 6 - i
  {
    if i < 5 && Passes(x, i) then Entered(x, i + 1) else i + 1
  }

  /** The work ran to its end. */
  predicate Done(x: Scenario) {
    Entered(x) == 6 && Passes(x, 5)
  }

  const NO_SUDO := "Could not obtain sudo credentials"
  const REFLECTOR_FAILED := "Reflector failed"
  const INVALID := "New mirrorlist validation failed"

  function ErrorOf<T>(r: Reply<T>, otherwise: string): string {
    if r.Raises? then r.error else otherwise
  }

  function OldInfo(x: Scenario): Info {
    if x.start.Some? then InfoOf(x.start.value) else NO_INFO
  }

  function NewInfo(x: Scenario): Info {
    if x.f.leaves.Some? then InfoOf(x.f.leaves.value) else NO_INFO
  }

  function ExecReply(x: Scenario): Reply<TaskResult<Details>> {
    var f := x.f;
    match Entered(x)
    case 1 => Raises(ErrorOf(f.sudo, NO_SUDO))
    case 2 => Raises(ErrorOf(f.readOld, ErrorOf(f.statOld, "")))
    case 3 => Returns(Failed(ErrorOf(f.backup, ""), Some(Details(None, None, OldInfo(x), NO_INFO, None))))
    case 4 => Raises(ErrorOf(f.reflector, REFLECTOR_FAILED))
    case 5 => Raises(INVALID)
    case _ =>
      if Passes(x, 5)
      then Returns(Success(Details(Some(OldInfo(x).totalMirrors), Some(NewInfo(x).totalMirrors),
                                   OldInfo(x), NewInfo(x), Some(f.backupPath))))
      else Raises(ErrorOf(f.readNew, ErrorOf(f.statNew, "")))
  }

  // ----- the hooks -----

  /** The render is as the run found it up to the spinner around reflector, live
      under it, and after it as the spinner left it. */
  predicate LiveDuring(c: Call, s: Shown) {
    match c
    case Reflector => true
    case ReadForValidation => s.After()
    case ReadNew => s.After()
    case ListBackups => s.After()
    case DeleteBackups(_) => s.After()
    case FindBackup => s.After()
    case CopyRestore => s.After()
    case _ => s.before
  }

  function Seen(calls: seq<Call>, s: Shown): seq<LogEntry<Call>> {
    seq(|calls|, i requires 0 <= i < |calls| => LogEntry.Call(calls[i], LiveDuring(calls[i], s)))
  }

  /** The render a rollback finds: reflector's spinner may not have been opened. */
  function AtRescue(x: Scenario): Shown {
    if Entered(x) >= 4 then x.shown else x.shown.(keeps := true)
  }

  function PreHook(x: Scenario): HookRun<Call, bool> {
    HookRun(Seen(if x.f.reflectorFound then [FindReflector, FindMirrorlist] else [FindReflector], x.shown),
            Returns(x.f.reflectorFound && x.start.Some?))
  }

  function ExecHook(x: Scenario): HookRun<Call, TaskResult<Details>> {
    HookRun(Seen(STEPS[..Entered(x)], x.shown), ExecReply(x))
  }

  /** All but the last `n`, read as the slice notation reads it: all but the
      last 0 is nothing. */
  function AllBut<T>(s: seq<T>, n: nat): seq<T> {
    if n == 0 || |s| < n then [] else s[..|s| - n]
  }

  function Stale(backups: seq<BackupFile>, retention: nat): seq<BackupFile> {
    if |backups| >= retention then AllBut(Sort(backups, Age), retention) else []
  }

  function Age(b: BackupFile): Key {
    (b.mtime, 0)
  }

  function CleanUp(x: Scenario): seq<Call> {
    if x.f.listing.Raises? || Stale(x.f.listing.value, x.retention) == [] then [ListBackups]
    else [ListBackups, DeleteBackups(Stale(x.f.listing.value, x.retention))]
  }

  function PostHook(x: Scenario, r: TaskResult<Details>): HookRun<Call, TaskResult<Details>> {
    HookRun(Seen(if r.status == SUCCESS then CleanUp(x) else [], x.shown), Returns(r))
  }

  /** The world the work leaves. */
  function Worked(x: Scenario): World {
    if Entered(x) >= 4 then World(x.f.leaves, x.start, x.files + multiset{MadeBackup(x)}) else StartOf(x)
  }

  /** The world after the clean-up of a success. */
  function Cleaned(x: Scenario, w: World): World {
    if x.f.listing.Raises? || Stale(x.f.listing.value, x.retention) == [] then w
    else w.(files := if x.f.deletion.Returns? then w.files - multiset(Stale(x.f.listing.value, x.retention))
                     else x.f.left)
  }

  function Rescue(x: Scenario, w: World): HookRun<Call, ()> {
    if w.backup.None? then HookRun([], Returns(()))
    else if x.f.backupThere.Raises? then HookRun(Seen([FindBackup], AtRescue(x)), Raises(x.f.backupThere.error))
    else if !x.f.backupThere.value then HookRun(Seen([FindBackup], AtRescue(x)), Returns(()))
    else HookRun(Seen([FindBackup, CopyRestore], AtRescue(x)), Returns(()))
  }

  function Rescued(x: Scenario, w: World): World {
    if w.backup.Some? && Yes(x.f.backupThere)
    then w.(mirrorlist := if x.f.restore.Restored? then w.backup else x.f.restore.leaves)
    else w
  }

  function HooksOf(x: Scenario): Hooks<Call, Details> {
    var exec := ExecHook(x);
    Hooks(PreHook(x), HookRun([], Returns(Proceed)), exec,
          if exec.reply.Returns? then PostHook(x, exec.reply.value) else HookRun([], Raises("")),
          Rescue(x, Worked(x)))
  }

  /** The world before any rescue. */
  function Attempted(x: Scenario): World {
    if !Cleared(HooksOf(x)) then StartOf(x)
    else if ExecReply(x).Returns? && ExecReply(x).value.status == SUCCESS then Cleaned(x, Worked(x))
    else Worked(x)
  }

  /** The world a run leaves. */
  function Final(x: Scenario): World {
    if Escaped(HooksOf(x)).Some? then Rescued(x, Attempted(x)) else Attempted(x)
  }

  // ----- the task -----

  class Host {
    var log: seq<LogEntry<Call>>
    var mirrorlist: Option<File>
    var files: multiset<BackupFile>

    constructor (mirrorlist: Option<File>, files: multiset<BackupFile>)
      ensures log == [] && this.mirrorlist == mirrorlist && this.files == files
    {
      log, this.mirrorlist, this.files := [], mirrorlist, files;
    }

    method Note(e: LogEntry<Call>)
      modifies this`log
      ensures log == old(log) + [e]
    {
      log := log + [e];
    }
  }

  class MirrorlistUpdateTask {
    const progress: RichProgress
    const host: Host
    const retention: nat
    /** The file at the backup path, once there is a backup path. */
    var backup: Option<File>
    var startTime: int

    constructor (progress: RichProgress, host: Host, retention: nat, backup: Option<File>)
      ensures this.progress == progress && this.host == host && this.retention == retention
      ensures this.backup == backup
    {
      this.progress, this.host, this.retention, this.backup, startTime := progress, host, retention, backup, 0;
    }

    ghost function Now(): World
      reads this`backup, host`mirrorlist, host`files
    {
      World(host.mirrorlist, backup, host.files)
    }

    /** The render as the run finds it, and what its spinner will leave of it. */
    ghost predicate Shows(s: Shown)
      reads progress`live, progress`taskId
    {
      s == Shown(progress.live, progress.taskId.Some?)
    }

    ghost predicate Fits(x: Scenario, f: Faults) {
      x.f == f && x.retention == retention
    }

    method Ask(c: Call, ghost s: Shown)
      requires progress.live == LiveDuring(c, s)
      modifies host`log
      ensures host.log == old(host.log) + Seen([c], s)
    {
      host.Note(LogEntry.Call(c, progress.live));
    }

    method PreCheck(f: Faults, ghost x: Scenario) returns (ok: bool)
      requires Fits(x, f) && progress.live == x.shown.before && x.start == host.mirrorlist
      modifies host`log
      ensures PreHook(x).reply == Returns(ok) && host.log == old(host.log) + PreHook(x).calls
    {
      Ask(FindReflector, x.shown);
      if !f.reflectorFound { return false; }
      Ask(FindMirrorlist, x.shown);
      SeenTwo(FindReflector, FindMirrorlist, x.shown);
      return host.mirrorlist.Some?;
    }

    /** The next step of the work. */
    method Step(c: Call, ghost k: nat, ghost s: Shown, ghost log0: seq<LogEntry<Call>>)
      requires k < 6 && STEPS[k] == c && progress.live == LiveDuring(c, s)
      requires host.log == log0 + Seen(STEPS[..k], s)
      modifies host`log
      ensures host.log == log0 + Seen(STEPS[..k + 1], s)
    {
      Ask(c, s);
      assert STEPS[..k + 1] == STEPS[..k] + [c];
      assert Seen(STEPS[..k], s) + Seen([c], s) == Seen(STEPS[..k + 1], s);
    }

    method Regenerate(f: Faults, ghost x: Scenario, ghost log0: seq<LogEntry<Call>>)
      requires progress.Valid() && Fits(x, f) && Shows(x.shown) && host.log == log0 + Seen(STEPS[..3], x.shown)
      modifies host, progress
      ensures progress.Valid() && progress.live == x.shown.After()
      ensures host.log == log0 + Seen(STEPS[..4], x.shown)
      ensures host.mirrorlist == f.leaves && host.files == old(host.files)
    {
      var row, wasShowing := progress.SpinnerEnter();
      Step(Reflector, 3, x.shown, log0);
      host.mirrorlist := f.leaves;
      progress.SpinnerExit(row, wasShowing);
    }

    lemma StepsSeen(s: Shown)
      ensures host.log == host.log + Seen(STEPS[..0], s)
    {
    }

    method Execute(f: Faults, ghost x: Scenario) returns (r: Reply<TaskResult<Details>>)
      requires progress.Valid() && Fits(x, f) && Shows(x.shown)
      requires StartOf(x) == Now() && x.start.Some?
      modifies host, progress, this`backup
      ensures progress.Valid() && progress.live == AtRescue(x).After()
      ensures r == ExecReply(x) && host.log == old(host.log) + ExecHook(x).calls && Now() == Worked(x)
    {
      hide Mirrors, InfoOf, Seen, Rescued, Rescue, CleanUp, Cleaned;
      ghost var s, log0 := x.shown, host.log;
      StepsSeen(s);
      Step(SudoValidate, 0, s, log0);
      if f.sudo.Raises? { return Raises(f.sudo.error); }
      if !f.sudo.value { return Raises(NO_SUDO); }
      Step(ReadOld, 1, s, log0);
      var oldInfo := GetMirrorlistInfo(host.mirrorlist, f.readOld, f.statOld);
      if oldInfo.Raises? { return Raises(oldInfo.error); }
      Step(CopyBackup, 2, s, log0);
      if f.backup.Raises? {
        return Returns(Failed(f.backup.error, Some(Details(None, None, oldInfo.value, NO_INFO, None))));
      }
      backup, host.files := host.mirrorlist, host.files + multiset{BackupOf(f, host.mirrorlist)};
      Regenerate(f, x, log0);
      if f.reflector.Raises? { return Raises(f.reflector.error); }
      if !f.reflector.value { return Raises(REFLECTOR_FAILED); }
      r := Inspect(f, oldInfo.value, x, log0);
    }

    /** Validates what reflector left, and reports the before and after. */
    method Inspect(f: Faults, oldInfo: Info, ghost x: Scenario, ghost log0: seq<LogEntry<Call>>)
      returns (r: Reply<TaskResult<Details>>)
      requires progress.Valid() && Fits(x, f) && progress.live == x.shown.After() && Entered(x) >= 5
      requires host.mirrorlist == f.leaves && oldInfo == OldInfo(x) && host.log == log0 + Seen(STEPS[..4], x.shown)
      modifies host`log
      ensures r == ExecReply(x) && host.log == log0 + Seen(STEPS[..Entered(x)], x.shown)
    {
      hide Mirrors, InfoOf, Seen, OldInfo;
      Step(ReadForValidation, 4, x.shown, log0);
      var validation := ValidateMirrorlist(host.mirrorlist, f.readForValidation);
      if !validation.Valid? { return Raises(INVALID); }
      Step(ReadNew, 5, x.shown, log0);
      var newInfo := GetMirrorlistInfo(host.mirrorlist, f.readNew, f.statNew);
      if newInfo.Raises? { return Raises(newInfo.error); }
      return Returns(Success(Details(Some(oldInfo.totalMirrors), Some(newInfo.value.totalMirrors),
                                     oldInfo, newInfo.value, Some(f.backupPath))));
    }

    /** Asks for the deletion of these files, if there are any. */
    method DeleteFiles(f: Faults, stale: seq<BackupFile>, ghost s: Shown)
      requires progress.live == s.After()
      modifies host`log, host`files
      ensures host.log == old(host.log) + (if stale == [] then [] else Seen([DeleteBackups(stale)], s))
      ensures host.files == if stale == [] then old(host.files)
                            else if f.deletion.Returns? then old(host.files) - multiset(stale) else f.left
    {
      if stale == [] { return; }
      Ask(DeleteBackups(stale), s);
      host.files := if f.deletion.Returns? then host.files - multiset(stale) else f.left;
    }

    method PostExecute(f: Faults, result: TaskResult<Details>, ghost x: Scenario)
      requires Fits(x, f) && (result.status == SUCCESS ==> backup.Some? && progress.live == x.shown.After())
      modifies host`log, host`files
      ensures host.log == old(host.log) + PostHook(x, result).calls
      ensures Now() == if result.status == SUCCESS then Cleaned(x, old(Now())) else old(Now())
    {
      if result.status != SUCCESS || backup.None? { return; }
      hide Seen, Sort;
      Ask(ListBackups, x.shown);
      if f.listing.Raises? { return; }
      var backups := Sort(f.listing.value, Age);
      SortedLength(f.listing.value);
      if |backups| >= retention {
        DeleteFiles(f, AllBut(backups, retention), x.shown);
        SeenTwo(ListBackups, DeleteBackups(AllBut(backups, retention)), x.shown);
      }
    }

    method Rollback(f: Faults, ghost x: Scenario)
      requires Fits(x, f) && progress.live == AtRescue(x).After()
      modifies host
      ensures host.log == old(host.log) + Rescue(x, old(Now())).calls && Now() == Rescued(x, old(Now()))
    {
      hide AtRescue, Seen;
      if backup.None? { return; }
      Ask(FindBackup, AtRescue(x));
      if f.backupThere.Raises? || !f.backupThere.value { return; }
      Ask(CopyRestore, AtRescue(x));
      SeenTwo(FindBackup, CopyRestore, AtRescue(x));
      host.mirrorlist := if f.restore.Restored? then backup else f.restore.leaves;
    }

    /** The `try` block of the template. */
    method Attempt(f: Faults, endedAt: int, ghost x: Scenario) returns (r: Reply<TaskResult<Details>>)
      requires progress.Valid() && Fits(x, f) && Shows(x.shown) && StartOf(x) == Now()
      modifies host, progress, this`backup
      ensures progress.Valid() && (r.Raises? ==> progress.live == AtRescue(x).After())
      ensures host.log == old(host.log) + Tried(HooksOf(x))
      ensures Now() == Attempted(x)
      ensures r == if Escaped(HooksOf(x)).Some? then Raises(Escaped(HooksOf(x)).value)
                   else Returns(Result(HooksOf(x)).(duration := endedAt - startTime))
    {
      hide HooksOf, Tried, Escaped, Result, PreHook, ExecHook, PostHook, ExecReply, Worked, Entered, Cleaned, AtRescue;
      Phases(x);
      host.Note(Hook(HookName.PreCheck));
      var ok := PreCheck(f, x);
      if !ok {
        var s := Timed(Skipped(Some(DEPENDENCY_FAILED)), startTime, endedAt);
        return Returns(s);
      }
      host.Note(Hook(HookName.ShouldRun));
      r := Work(f, endedAt, x);
    }

    /** The work and its follow-up, behind both gates. */
    method Work(f: Faults, endedAt: int, ghost x: Scenario) returns (r: Reply<TaskResult<Details>>)
      requires progress.Valid() && Fits(x, f) && Shows(x.shown) && StartOf(x) == Now() && x.start.Some?
      modifies host, progress, this`backup
      ensures progress.Valid() && (r.Raises? ==> progress.live == AtRescue(x).After())
      ensures ExecReply(x).Raises? ==>
                && r == Raises(ExecReply(x).error) && Now() == Worked(x)
                && host.log == old(host.log) + [Hook(HookName.Execute)] + ExecHook(x).calls
      ensures ExecReply(x).Returns? ==>
                && r == Returns(ExecReply(x).value.(duration := endedAt - startTime))
                && Now() == (if ExecReply(x).value.status == SUCCESS then Cleaned(x, Worked(x)) else Worked(x))
                && host.log == old(host.log) + [Hook(HookName.Execute)] + ExecHook(x).calls
                               + [Hook(HookName.PostExecute)] + PostHook(x, ExecReply(x).value).calls
    {
      hide ExecHook, PostHook, ExecReply, Worked, Entered, Cleaned, AtRescue;
      host.Note(Hook(HookName.Execute));
      var result := Execute(f, x);
      if result.Raises? { return Raises(result.error); }
      host.Note(Hook(HookName.PostExecute));
      if result.value.status == SUCCESS { SuccessEnds(x); }
      PostExecute(f, result.value, x);
      var done := Timed(result.value, startTime, endedAt);
      return Returns(done);
    }

    /** `try` and `except` together. */
    method AttemptOrRescue(f: Faults, endedAt: int, ghost x: Scenario) returns (r: TaskResult<Details>)
      requires progress.Valid() && Fits(x, f) && Shows(x.shown) && StartOf(x) == Now()
      modifies host, progress, this`backup
      ensures progress.Valid() && Now() == Final(x)
      ensures r == Result(HooksOf(x)).(duration := endedAt - startTime)
      ensures host.log + [Closed] == old(host.log) + Trace(HooksOf(x))
    {
      hide Tried, HooksOf, Result, Seen, Attempted, Entered, ExecReply, PreHook, Cleared, Escaped, Final, Rescue, Rescued,
           AtRescue, Trace, RichProgress.Valid;
      Endings(x);
      var outcome := Attempt(f, endedAt, x);
      match outcome {
        case Returns(done) =>
          r := done;
        case Raises(error) =>
          host.Note(Hook(HookName.Rollback));
          Rollback(f, x);
          r := Timed(Failed(error), startTime, endedAt);
      }
    }

    /** One complete run. It leaves a stopped render, whatever it finds. */
    method Run(f: Faults, logging: Reply<()>, startedAt: int, endedAt: int, ghost x: Scenario)
      returns (r: Reply<TaskResult<Details>>)
      requires progress.Valid() && Fits(x, f) && Shows(x.shown) && StartOf(x) == Now()
      modifies host, progress, this
      ensures progress.Valid() && (logging.Returns? ==> !progress.live)
      ensures logging.Raises? ==> progress.Value() == old(progress.Value())
      ensures logging.Raises? ==> r == Raises(logging.error) && host.log == old(host.log) && Now() == old(Now())
      ensures logging.Returns? ==> r == Returns(Result(HooksOf(x)).(duration := endedAt - startedAt))
      ensures logging.Returns? ==> host.log == old(host.log) + Trace(HooksOf(x)) && Now() == Final(x)
    {
      hide HooksOf, Result, Trace, Final;
      startTime := startedAt;
      if logging.Raises? { return Raises(logging.error); }
      var result := AttemptOrRescue(f, endedAt, x);
      progress.Stop();
      host.Note(Closed);
      r := Returns(result);
    }
  }

  function GatePhase(x: Scenario): seq<LogEntry<Call>> {
    [Hook(HookName.PreCheck)] + PreHook(x).calls
  }

  function WorkPhase(x: Scenario): seq<LogEntry<Call>> {
    GatePhase(x) + [Hook(HookName.ShouldRun)] + [Hook(HookName.Execute)] + ExecHook(x).calls
  }

  /** The template's `try` block, phase by phase. */
  lemma Phases(x: Scenario)
    ensures Cleared(HooksOf(x)) <==> PreHook(x).reply == Returns(true)
    ensures PreHook(x).reply == Returns(true) ==> x.start.Some?
    ensures !Cleared(HooksOf(x)) ==>
              && Tried(HooksOf(x)) == GatePhase(x) && Escaped(HooksOf(x)) == None
              && Result(HooksOf(x)) == Skipped(Some(DEPENDENCY_FAILED))
    ensures Cleared(HooksOf(x)) && ExecReply(x).Raises? ==>
              Tried(HooksOf(x)) == WorkPhase(x) && Escaped(HooksOf(x)) == Some(ExecReply(x).error)
    ensures Cleared(HooksOf(x)) && ExecReply(x).Returns? ==>
              && Tried(HooksOf(x))
                 == WorkPhase(x) + [Hook(HookName.PostExecute)] + PostHook(x, ExecReply(x).value).calls
              && Escaped(HooksOf(x)) == None && Result(HooksOf(x)) == ExecReply(x).value
  {
    hide Tried, Entered, ExecReply, CleanUp, Worked, Seen;
    HookByHook(HooksOf(x));
    assert GatePhase(x) + [Hook(HookName.ShouldRun)] + [] == GatePhase(x) + [Hook(HookName.ShouldRun)];
  }

  lemma SuccessEnds(x: Scenario)
    requires x.start.Some? && ExecReply(x).Returns? && ExecReply(x).value.status == SUCCESS
    ensures Worked(x).backup.Some? && AtRescue(x) == x.shown
  {
  }

  /** The template's `except` block, and what the run leaves. */
  lemma Endings(x: Scenario)
    ensures Escaped(HooksOf(x)) == None ==>
              Trace(HooksOf(x)) == Tried(HooksOf(x)) + [Closed] && Final(x) == Attempted(x)
    ensures Escaped(HooksOf(x)).Some? ==>
              && Trace(HooksOf(x))
                 == Tried(HooksOf(x)) + [Hook(HookName.Rollback)] + Rescue(x, Attempted(x)).calls + [Closed]
              && Final(x) == Rescued(x, Attempted(x)) && Attempted(x) == Worked(x)
              && Result(HooksOf(x)) == Failed(Escaped(HooksOf(x)).value)
  {
    hide Tried, Entered, ExecReply, Worked, Rescue, Rescued, CleanUp;
    var h := HooksOf(x);
    if Escaped(h).Some? {
      assert Segment(h, HookName.Rollback) == [Hook(HookName.Rollback)] + Rescue(x, Worked(x)).calls;
    }
  }

  lemma SeenTwo(a: Call, b: Call, s: Shown)
    ensures Seen([a], s) + Seen([b], s) == Seen([a, b], s)
  {
  }

  lemma SortedLength(files: seq<BackupFile>)
    ensures |Sort(files, Age)| == |files|
  {
    SortIsStable(files, Age);
    SameLength(files, Sort(files, Age));
  }

  lemma SameLength<T>(a: seq<T>, b: seq<T>)
    requires multiset(a) == multiset(b)
    ensures |a| == |b|
  {
    assert |multiset(a)| == |a| && |multiset(b)| == |b|;
  }
}
