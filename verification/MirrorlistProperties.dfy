/** What every mirrorlist-update run guarantees, for every behaviour of
    reflector and of the files. */
module MirrorlistProperties {
  import opened Std
  import opened Progress
  import opened Models
  import opened BaseTask
  import opened MirrorlistFile
  import opened MirrorlistUpdate
  import opened StableSort

  type Log = seq<LogEntry<Call>>

  predicate Made(log: Log, c: Call) {
    exists live: bool :: LogEntry.Call(c, live) in log
  }

  function Outcome(x: Scenario): TaskResult<Details> {
    Result(HooksOf(x))
  }

  /** The rollback, when it is needed, finds its backup and copies it back. */
  predicate RescueWorks(f: Faults) {
    Yes(f.backupThere) && f.restore.Restored?
  }

  // ----- results -----

  /** The four kinds of outcome. */
  lemma OutcomeIff(x: Scenario)
    ensures Outcome(x).status == SKIPPED <==> !(x.f.reflectorFound && x.start.Some?)
    ensures Outcome(x).status == SUCCESS <==>
              x.f.reflectorFound && x.start.Some? && forall i | 0 <= i < 6 :: Passes(x, i)
    ensures Outcome(x).status != PARTIAL
  {
    hide Tried;
    Phases(x);
    if x.f.reflectorFound && x.start.Some? && (forall i | 0 <= i < 6 :: Passes(x, i)) {
      assert Passes(x, 5) && Entered(x) == 6;
    }
    if Outcome(x).status == SUCCESS {
      assert Entered(x) == 6 && Passes(x, 5);
      assert forall j | 0 <= j < 5 :: Passes(x, j);
    }
  }

  /** A success leaves a valid file with exactly the reported number of mirrors,
      and a backup of the file it found. */
  lemma SuccessIsValid(x: Scenario)
    requires Outcome(x).status == SUCCESS
    ensures x.start.Some? && Final(x).mirrorlist.Some? && Final(x).backup == x.start
    ensures Mirrors(Final(x).mirrorlist.value.text) != [] && Outcome(x).details.Some?
    ensures Outcome(x).details.value.newMirrors == Some(|Mirrors(Final(x).mirrorlist.value.text)|)
    ensures Outcome(x).details.value.oldMirrors == Some(|Mirrors(x.start.value.text)|)
    ensures var d, before, after := Outcome(x).details.value, x.start.value, Final(x).mirrorlist.value;
            && d.oldInfo == Info(|Mirrors(before.text)|, ProtocolsOf(Mirrors(before.text)), Some(before.mtime))
            && d.newInfo == Info(|Mirrors(after.text)|, ProtocolsOf(Mirrors(after.text)), Some(after.mtime))
            && d.backupPath == Some(x.f.backupPath)
  {
    OutcomeIff(x);
    hide Tried, Mirrors, ProtocolsOf;
    Phases(x);
    assert Entered(x) == 6;
    assert Passes(x, 1) && Passes(x, 4) && Passes(x, 5);
  }

  /** The restore is copied iff reflector ran, the run did not succeed, and the
      backup is found: nothing is copied back before there is something to undo. */
  lemma RestoreIff(x: Scenario)
    requires x.preset.None?
    ensures Made(Trace(HooksOf(x)), CopyRestore)
            <==> Made(Trace(HooksOf(x)), Reflector) && Outcome(x).status != SUCCESS && Yes(x.f.backupThere)
  {
    CallsOfRun(x);
    OutcomeIff(x);
    WorkEnds(x);
  }

  /** Without success the file is what it was, provided the rollback works when
      reflector ran. */
  lemma OriginalKept(x: Scenario)
    requires x.preset.None? && Outcome(x).status != SUCCESS
    requires Made(Trace(HooksOf(x)), Reflector) ==> RescueWorks(x.f)
    ensures Final(x).mirrorlist == x.start
  {
    CallsOfRun(x);
    OutcomeIff(x);
    WorkEnds(x);
    hide Tried;
    Phases(x);
  }

  predicate KeepsOriginal(x: Scenario) {
    Outcome(x).status != SUCCESS && RescueWorks(x.f) ==> Final(x).mirrorlist == x.start
  }

  /** A task that starts out holding a backup keeps that promise for every
      behaviour of the world iff the backup is of the current file; otherwise a
      declined sudo prompt is enough to put the old backup in its place. */
  lemma KeepsOriginalIff(start: Option<File>, preset: Option<File>)
    ensures (forall x: Scenario | x.start == start && x.preset == preset :: KeepsOriginal(x))
            <==> start.None? || preset.None? || preset == start
  {
    if start.None? || preset.None? || preset == start {
      forall x: Scenario | x.start == start && x.preset == preset
        ensures KeepsOriginal(x)
      {
        OriginalOrOldBackup(x);
      }
    } else {
      var x := Declined(start, preset);
      PresetRestored(x);
    }
  }

  lemma OriginalOrOldBackup(x: Scenario)
    requires x.start.None? || x.preset.None? || x.preset == x.start
    ensures KeepsOriginal(x)
  {
  }

  /** A run in which the sudo prompt is declined and everything else works. */
  function Declined(start: Option<File>, preset: Option<File>): (x: Scenario)
    ensures x.start == start && x.preset == preset && x.f.reflectorFound && No(x.f.sudo) && RescueWorks(x.f)
  {
    Scenario(Faults(true, Returns(false), Returns(()), Returns(()), Returns(()), "", Returns(true), start,
                    Returns(()), Returns(()), Returns(()), Returns([]), Returns(()), multiset{}, Returns(true), Restored),
             start, preset, multiset{}, 1, STOPPED)
  }

  lemma PresetRestored(x: Scenario)
    requires x.f.reflectorFound && x.start.Some? && No(x.f.sudo) && RescueWorks(x.f) && x.preset.Some?
    ensures Outcome(x).status == FAILURE && Final(x).mirrorlist == x.preset
  {
  }

  // ----- calls -----

  /** The work raises iff it got as far as reflector without getting through, or
      broke before the backup. */
  lemma WorkEnds(x: Scenario)
    ensures ExecReply(x).Raises? <==> !Done(x) && Entered(x) != 3
  {
  }

  lemma InSeen(calls: seq<Call>, c: Call, s: Shown)
    ensures Made(Seen(calls, s), c) <==> c in calls
  {
    if c in calls {
      var i :| 0 <= i < |calls| && calls[i] == c;
      assert Seen(calls, s)[i] == LogEntry.Call(c, LiveDuring(c, s));
    }
  }

  lemma MadeInTwo(a: Log, b: Log, c: Call)
    ensures Made(a + b, c) <==> Made(a, c) || Made(b, c)
  {
  }

  lemma MadeInOne(e: LogEntry<Call>, c: Call)
    requires !e.Call?
    ensures !Made([e], c)
  {
  }

  lemma MadeInSegment(h: Hooks<Call, Details>, n: HookName, c: Call)
    ensures Made(Segment(h, n), c) <==> Reached(h, n) && Made(CallsOf(h, n), c)
  {
  }

  /** A run makes a call iff a reached hook makes it. */
  lemma MadeInTrace(h: Hooks<Call, Details>, c: Call)
    ensures Made(Trace(h), c) <==> exists n: HookName :: Reached(h, n) && Made(CallsOf(h, n), c)
  {
    hide Made, Segment, Reached;
    var s1, s2, s3, s4 := Segment(h, PreCheck), Segment(h, ShouldRun), Segment(h, Execute), Segment(h, PostExecute);
    MadeInTwo(s1, s2, c);
    MadeInTwo(s1 + s2, s3, c);
    MadeInTwo(s1 + s2 + s3, s4, c);
    MadeInTwo(Tried(h), Segment(h, Rollback), c);
    MadeInTwo(Body(h), [Closed], c);
    MadeInOne(Closed, c);
    MadeInSegment(h, PreCheck, c);
    MadeInSegment(h, ShouldRun, c);
    MadeInSegment(h, Execute, c);
    MadeInSegment(h, PostExecute, c);
    MadeInSegment(h, Rollback, c);
  }

  /** The calls of each hook of a run. */
  lemma CallsOfHooks(x: Scenario, c: Call)
    ensures var h := HooksOf(x);
            && (Made(h.pre.calls, c) ==> c.FindReflector? || c.FindMirrorlist?)
            && !Made(h.gate.calls, c)
            && (Made(h.exec.calls, c) <==> c in STEPS[..Entered(x)])
            && (Made(h.post.calls, c) <==>
                  ExecReply(x).Returns? && ExecReply(x).value.status == SUCCESS && c in CleanUp(x))
            && (Made(h.rollback.calls, c) <==>
                  Worked(x).backup.Some? && (c.FindBackup? || (c.CopyRestore? && Yes(x.f.backupThere))))
  {
    InSeen([FindReflector], c, x.shown);
    InSeen([FindReflector, FindMirrorlist], c, x.shown);
    InSeen(STEPS[..Entered(x)], c, x.shown);
    InSeen(CleanUp(x), c, x.shown);
    InSeen([], c, x.shown);
    InSeen([FindBackup], c, AtRescue(x));
    InSeen([FindBackup, CopyRestore], c, AtRescue(x));
  }

  /** When the calls that touch the mirrorlist are made. */
  lemma CallsOfRun(x: Scenario)
    ensures Made(Trace(HooksOf(x)), Reflector) <==> Cleared(HooksOf(x)) && Entered(x) >= 4
    ensures Made(Trace(HooksOf(x)), CopyRestore)
            <==> Cleared(HooksOf(x)) && ExecReply(x).Raises? && Worked(x).backup.Some? && Yes(x.f.backupThere)
  {
    hide Made, Trace, Entered, ExecReply, Worked, CleanUp;
    var h := HooksOf(x);
    MadeInTrace(h, Reflector);
    MadeInTrace(h, CopyRestore);
    CallsOfHooks(x, Reflector);
    CallsOfHooks(x, CopyRestore);
    CleanUpCalls(x);
    StepCalls(x);
    Reaches(x);
    forall n: HookName
      ensures Reached(h, n) && Made(CallsOf(h, n), Reflector) <==> n == Execute && Cleared(h) && Entered(x) >= 4
      ensures Reached(h, n) && Made(CallsOf(h, n), CopyRestore)
              <==> && n == Rollback && Cleared(h) && ExecReply(x).Raises?
                   && Worked(x).backup.Some? && Yes(x.f.backupThere)
    {
    }
  }

  lemma CleanUpCalls(x: Scenario)
    ensures forall c <- CleanUp(x) :: c.ListBackups? || c.DeleteBackups?
  {
  }

  lemma StepCalls(x: Scenario)
    ensures Reflector in STEPS[..Entered(x)] <==> Entered(x) >= 4
    ensures CopyRestore !in STEPS[..Entered(x)]
  {
    if Entered(x) >= 4 { assert STEPS[..Entered(x)][3] == Reflector; }
  }

  lemma Reaches(x: Scenario)
    ensures Reached(HooksOf(x), Execute) <==> Cleared(HooksOf(x))
    ensures Reached(HooksOf(x), Rollback) <==> Cleared(HooksOf(x)) && ExecReply(x).Raises?
  {
  }

  // ----- sudo -----

  /** A sudo call other than the one that asks for the credentials. */
  predicate UsesSudo(e: LogEntry<Call>) {
    e.Call? && IsSudo(e.call) && !e.call.SudoValidate?
  }

  /** No sudo call comes before the first `sudo -v`, and none at all unless it
      granted credentials. */
  lemma SudoFirst(x: Scenario, i: nat)
    requires x.preset.None? && i < |Trace(HooksOf(x))|
    ensures UsesSudo(Trace(HooksOf(x))[i]) ==>
              && Yes(x.f.sudo)
              && exists j | 0 <= j < i :: Trace(HooksOf(x))[j] == LogEntry.Call(SudoValidate, x.shown.before)
  {
    hide Trace, Cleared, GatePhase, WorkPhase, Entered, Passes;
    var log, g := Trace(HooksOf(x)), |GatePhase(x)|;
    TraceStart(x);
    GateCalls(x);
    assert GatePhase(x) <= log;
    assert forall k | 0 <= k < g :: log[k] == GatePhase(x)[k];
    if Cleared(HooksOf(x)) {
      FirstStep(x);
      assert log[g] == WorkPhase(x)[g] && log[g + 1] == WorkPhase(x)[g + 1] && log[g + 2] == WorkPhase(x)[g + 2];
    }
  }

  /** A run that does not get the credentials stops there. */
  lemma TraceStart(x: Scenario)
    ensures GatePhase(x) <= Trace(HooksOf(x))
    ensures !Cleared(HooksOf(x)) ==> Trace(HooksOf(x)) == GatePhase(x) + [Closed]
    ensures Cleared(HooksOf(x)) ==> WorkPhase(x) <= Trace(HooksOf(x))
    ensures Cleared(HooksOf(x)) && !Yes(x.f.sudo) && x.preset.None? ==>
              Entered(x) == 1 && Trace(HooksOf(x)) == WorkPhase(x) + [Hook(Rollback)] + [Closed]
  {
    hide Tried, Trace, HooksOf, Cleared, Escaped, Result, PreHook, ExecHook, PostHook, Rescued, Final, Rescue, Worked,
         Entered, ExecReply, Attempted;
    Phases(x);
    Endings(x);
    if !Yes(x.f.sudo) && x.preset.None? { DeclinedAtOnce(x); }
  }

  lemma DeclinedAtOnce(x: Scenario)
    requires !Yes(x.f.sudo) && x.preset.None?
    ensures Entered(x) == 1 && ExecReply(x).Raises? && Rescue(x, Worked(x)).calls == []
    ensures Cleared(HooksOf(x)) ==> Attempted(x) == Worked(x)
  {
    StopsAtOnce(x);
  }

  lemma StopsAtOnce(x: Scenario)
    requires !Passes(x, 0)
    ensures Entered(x) == 1
  {
  }

  lemma GateCalls(x: Scenario)
    ensures forall e <- GatePhase(x) :: e.Call? ==> !IsSudo(e.call)
  {
  }

  lemma FirstStep(x: Scenario)
    ensures var g := |GatePhase(x)|;
            && |WorkPhase(x)| == g + 2 + Entered(x)
            && WorkPhase(x)[g] == Hook(ShouldRun) && WorkPhase(x)[g + 1] == Hook(Execute)
            && WorkPhase(x)[g + 2] == LogEntry.Call(SudoValidate, x.shown.before)
  {
  }

  /** Every call's render, wherever the run starts from. */
  lemma CallsAreSeen(x: Scenario, e: LogEntry<Call>)
    requires e in Trace(HooksOf(x)) && e.Call?
    ensures e.live == LiveDuring(e.call, x.shown) || e.live == LiveDuring(e.call, AtRescue(x))
  {
    hide Entered, ExecReply, CleanUp, Worked, AtRescue, Trace, CallsOf, Seen, LiveDuring, HooksOf;
    SomeHookCalls(HooksOf(x), e);
    var n: HookName :| e in CallsOf(HooksOf(x), n);
    HookSees(x, n);
    var calls, s :| CallsOf(HooksOf(x), n) == Seen(calls, s) && (s == x.shown || s == AtRescue(x));
    SeenLive(calls, s, e);
  }

  lemma SomeHookCalls(h: Hooks<Call, Details>, e: LogEntry<Call>)
    requires e in Trace(h) && e.Call?
    ensures exists n: HookName :: e in CallsOf(h, n)
  {
    hide Reached;
    assert exists n: HookName :: e in Segment(h, n);
  }

  lemma HookSees(x: Scenario, n: HookName)
    ensures exists calls, s :: CallsOf(HooksOf(x), n) == Seen(calls, s) && (s == x.shown || s == AtRescue(x))
  {
    hide Entered, ExecReply, CleanUp, Worked, AtRescue, LiveDuring;
    assert Seen([], x.shown) == [];
  }

  lemma SeenLive(calls: seq<Call>, s: Shown, e: LogEntry<Call>)
    requires e in Seen(calls, s)
    ensures e.Call? && e.live == LiveDuring(e.call, s)
  {
  }

  /** The render is live during the reflector call and no other, in particular
      at no sudo prompt, iff the run finds a stopped one. */
  lemma OnlyReflectorIsLiveIff(x: Scenario)
    ensures (forall e <- Trace(HooksOf(x)) :: e.Call? ==> (e.live <==> e.call.Reflector?)) <==> !x.shown.before
  {
    if !x.shown.before {
      forall e <- Trace(HooksOf(x)) | e.Call?
        ensures e.live <==> e.call.Reflector?
      {
        CallsAreSeen(x, e);
      }
    } else {
      FirstCall(x);
    }
  }

  lemma FirstCall(x: Scenario)
    ensures LogEntry.Call(FindReflector, x.shown.before) in Trace(HooksOf(x))
  {
    hide Entered, ExecReply, CleanUp, Worked, AtRescue, Tried;
    Phases(x);
    TraceStart(x);
    assert PreHook(x).calls[0] == LogEntry.Call(FindReflector, x.shown.before);
    assert GatePhase(x)[1] == PreHook(x).calls[0];
  }

  // ----- retention -----

  /** With a retention of at least one, exactly the newest files stay: as many as
      the retention allows, none older than a deleted one. */
  lemma RetentionKeepsNewest(backups: seq<BackupFile>, retention: nat)
    requires retention >= 1
    ensures var sorted, stale := Sort(backups, Age), Stale(backups, retention);
            && stale <= sorted
            && multiset(stale) + multiset(sorted[|stale|..]) == multiset(backups)
            && |sorted[|stale|..]| == Min(|backups|, retention)
            && forall d, k | d in stale && k in sorted[|stale|..] :: d.mtime <= k.mtime
  {
    SortIsStable(backups, Age);
    StalePrefix(backups, retention);
    hide Sort, Sorted, Stale, Band, Age;
    SplitByAge(Sort(backups, Age), |Stale(backups, retention)|);
  }

  lemma StalePrefix(backups: seq<BackupFile>, retention: nat)
    requires retention >= 1
    ensures Stale(backups, retention) <= Sort(backups, Age)
    ensures |Sort(backups, Age)| - |Stale(backups, retention)| == Min(|backups|, retention)
  {
    SortedLength(backups);
    hide Sort, Age;
  }

  lemma SplitByAge(sorted: seq<BackupFile>, n: nat)
    requires Sorted(sorted, Age) && n <= |sorted|
    ensures multiset(sorted[..n]) + multiset(sorted[n..]) == multiset(sorted)
    ensures forall d, k | d in sorted[..n] && k in sorted[n..] :: d.mtime <= k.mtime
  {
    assert sorted == sorted[..n] + sorted[n..];
    forall d, k | d in sorted[..n] && k in sorted[n..]
      ensures d.mtime <= k.mtime
    {
      var i :| 0 <= i < n && sorted[..n][i] == d;
      var j :| 0 <= j < |sorted| - n && sorted[n..][j] == k;
      assert Leq(Age(sorted[i]), Age(sorted[n + j]));
    }
  }

  /** The listing is of the directory as the work leaves it, and a failing
      deletion removes nothing it was not asked to. */
  predicate Honest(x: Scenario) {
    x.f.listing.Returns? ==>
      var files, stale := Worked(x).files, multiset(Stale(x.f.listing.value, x.retention));
      && multiset(x.f.listing.value) == files
      && (x.f.deletion.Raises? ==> files - stale <= x.f.left <= files)
  }

  /** The files behind the stale ones, in the sorted listing. */
  function Kept(backups: seq<BackupFile>, retention: nat): seq<BackupFile>
  {
    var sorted, n := Sort(backups, Age), |Stale(backups, retention)|;
    if n <= |sorted| then sorted[n..] else []
  }

  /** Without success no backup file goes; with it, none of the kept ones does,
      even when the deletion fails half way. */
  lemma KeptFilesSurvive(x: Scenario)
    requires Honest(x) && x.retention >= 1
    ensures Outcome(x).status != SUCCESS ==> x.files <= Final(x).files
    ensures Outcome(x).status == SUCCESS ==> Final(x).files <= x.files + multiset{MadeBackup(x)}
    ensures Outcome(x).status == SUCCESS && x.f.listing.Returns? ==>
              multiset(Kept(x.f.listing.value, x.retention)) <= Final(x).files
  {
    OutcomeIff(x);
    hide Tried, Stale;
    Phases(x);
    if Outcome(x).status == SUCCESS {
      SuccessEntered(x);
      if x.f.listing.Returns? { RetentionKeepsNewest(x.f.listing.value, x.retention); }
    }
  }

  lemma SuccessEntered(x: Scenario)
    requires Outcome(x).status == SUCCESS
    ensures Entered(x) == 6 && Final(x) == Cleaned(x, Worked(x)) && Worked(x).files == x.files + multiset{MadeBackup(x)}
  {
    hide Tried;
    Phases(x);
  }

  /** When listing and deletion succeed, the directory holds exactly as many
      files as the retention allows, and none older than a deleted one. */
  lemma RetentionHolds(x: Scenario)
    requires Honest(x) && x.retention >= 1 && Outcome(x).status == SUCCESS
    requires x.f.listing.Returns? && x.f.deletion.Returns?
    ensures Final(x).files == multiset(Kept(x.f.listing.value, x.retention))
    ensures |Final(x).files| == Min(|x.files| + 1, x.retention)
    ensures forall d, k | d in x.files + multiset{MadeBackup(x)} - Final(x).files && k in Final(x).files :: d.mtime <= k.mtime
  {
    hide Sort, Final, Worked, Stale, Kept;
    SuccessEntered(x);
    RetentionKeepsNewest(x.f.listing.value, x.retention);
    var kept, stale := Kept(x.f.listing.value, x.retention), Stale(x.f.listing.value, x.retention);
    StaleThenKept(x.f.listing.value, x.retention);
    CleanedLeaves(x, Worked(x));
    TakeAway(multiset(stale), multiset(kept));
    assert |multiset(kept)| == |kept|;
    assert |multiset(x.f.listing.value)| == |x.f.listing.value|;
  }

  lemma StaleThenKept(backups: seq<BackupFile>, retention: nat)
    requires Stale(backups, retention) <= Sort(backups, Age)
    ensures Sort(backups, Age)[|Stale(backups, retention)|..] == Kept(backups, retention)
  {
  }

  lemma CleanedLeaves(x: Scenario, w: World)
    requires x.f.listing.Returns? && x.f.deletion.Returns?
    ensures Cleaned(x, w).files == w.files - multiset(Stale(x.f.listing.value, x.retention))
  {
  }

  lemma TakeAway(stale: multiset<BackupFile>, kept: multiset<BackupFile>)
    ensures stale + kept - stale == kept && stale + kept - kept == stale
  {
  }

  /** The new backup can itself be deleted, since only times count: if it is,
      every file that stays is at least as new; and it is, if the retention is
      used up by strictly newer files. */
  lemma NewBackupMayGo(x: Scenario, newer: multiset<BackupFile>)
    requires Honest(x) && x.retention >= 1 && Outcome(x).status == SUCCESS
    requires x.f.listing.Returns? && x.f.deletion.Returns?
    ensures MadeBackup(x) !in Final(x).files ==>
              |Final(x).files| == x.retention && forall k <- Final(x).files :: k.mtime >= MadeBackup(x).mtime
    ensures newer <= x.files && |newer| == x.retention && (forall b <- newer :: b.mtime > MadeBackup(x).mtime) ==>
              MadeBackup(x) !in Final(x).files
  {
    RetentionHolds(x);
    hide Final, Honest, Kept;
    var all, kept := x.files + multiset{MadeBackup(x)}, Final(x).files;
    SuccessShrinks(x);
    if MadeBackup(x) !in kept {
      assert MadeBackup(x) in all - kept;
      if |kept| == |x.files| + 1 { Same(kept, all); }
    } else if newer <= x.files && |newer| == x.retention && MadeBackup(x) !in newer {
      var d := Spare(newer, kept, MadeBackup(x));
      assert d in all - kept;
    }
  }

  // ----- exactly when the new backup stays -----

  /** The files that are at least as new as `t`. */
  ghost function AsNew(files: multiset<BackupFile>, t: int): (m: multiset<BackupFile>)
    ensures forall b :: m[b] == if b.mtime >= t then files[b] else 0
    decreases |files|
  {
    if files == multiset{} then multiset{}
    else
      var b :| b in files;
      AsNew(files - multiset{b}, t) + (if b.mtime >= t then multiset{b} else multiset{})
  }

  /** Two runs that differ at most in the order their clean-up lists the files in. */
  predicate Relisted(x: Scenario, y: Scenario) {
    y == x.(f := x.f.(listing := y.f.listing)) && y.f.listing.Returns?
  }

  /** After a success, the backup just made stays, in whatever order the directory
      is listed, iff fewer of the older backups than the retention are at least
      as new as it. */
  lemma NewBackupStaysIff(x: Scenario)
    requires x.retention >= 1 && Outcome(x).status == SUCCESS && x.f.deletion.Returns? && MadeBackup(x) !in x.files
    ensures (forall y | Relisted(x, y) && Honest(y) :: MadeBackup(x) in Final(y).files)
            <==> |AsNew(x.files, MadeBackup(x).mtime)| < x.retention
  {
    hide Outcome, Honest, Final, MadeBackup;
    if |AsNew(x.files, MadeBackup(x).mtime)| < x.retention {
      forall y | Relisted(x, y) && Honest(y)
        ensures MadeBackup(x) in Final(y).files
      {
        StaysWithRoom(x, y);
      }
    } else {
      var y := GoesWithoutRoom(x);
    }
  }

  lemma StaysWithRoom(x: Scenario, y: Scenario)
    requires x.retention >= 1 && x.f.deletion.Returns? && Relisted(x, y)
    ensures Outcome(x).status == SUCCESS && Honest(y) && |AsNew(x.files, MadeBackup(x).mtime)| < x.retention ==>
              MadeBackup(x) in Final(y).files
  {
    if Outcome(x).status == SUCCESS && Honest(y) && |AsNew(x.files, MadeBackup(x).mtime)| < x.retention {
      SameSuccess(x, y);
      RetentionHolds(y);
      NewBackupMayGo(y, multiset{});
      SuccessShrinks(y);
      hide Outcome, Honest, Final, MadeBackup;
      if MadeBackup(x) !in Final(y).files { KeptAreAsNew(Final(y).files, x.files, MadeBackup(x)); }
    }
  }

  lemma GoesWithoutRoom(x: Scenario) returns (y: Scenario)
    requires x.retention >= 1 && Outcome(x).status == SUCCESS && x.f.deletion.Returns? && MadeBackup(x) !in x.files
    requires |AsNew(x.files, MadeBackup(x).mtime)| >= x.retention
    ensures Relisted(x, y) && Honest(y) && MadeBackup(x) !in Final(y).files
  {
    var made := MadeBackup(x);
    var rest := ListOf(x.files);
    y := x.(f := x.f.(listing := Returns([made] + rest)));
    SameSuccess(x, y);
    assert multiset([made] + rest) == x.files + multiset{made};
    RetentionHolds(y);
    ListedFirstGoes(made, rest, x.retention);
    hide Outcome, Final, MadeBackup, Kept;
  }

  lemma SameSuccess(x: Scenario, y: Scenario)
    requires Relisted(x, y) && Outcome(x).status == SUCCESS
    ensures Outcome(y).status == SUCCESS && Worked(y).files == x.files + multiset{MadeBackup(x)}
    ensures MadeBackup(y) == MadeBackup(x)
  {
    CleanUpNeverMatters(x, y);
    SuccessEntered(y);
  }

  /** If the kept files leave `made` out and are all as new, there are that many
      as new among the others. */
  lemma KeptAreAsNew(kept: multiset<BackupFile>, files: multiset<BackupFile>, made: BackupFile)
    requires kept <= files + multiset{made} && made !in kept && forall k <- kept :: k.mtime >= made.mtime
    ensures |kept| <= |AsNew(files, made.mtime)|
  {
    var a := AsNew(files, made.mtime);
    assert kept <= a;
    assert a == kept + (a - kept);
  }

  lemma ListOf(files: multiset<BackupFile>) returns (s: seq<BackupFile>)
    ensures multiset(s) == files
    decreases |files|
  {
    if files == multiset{} {
      s := [];
    } else {
      var b :| b in files;
      var t := ListOf(files - multiset{b});
      s := t + [b];
    }
  }

  lemma SortStep(made: BackupFile, rest: seq<BackupFile>)
    requires rest != []
    ensures Sort([made] + rest, Age) == Insert(Sort([made] + rest[..|rest| - 1], Age), rest[|rest| - 1], Age)
  {
    hide Insert, Leq, Age;
    assert ([made] + rest)[..|rest|] == [made] + rest[..|rest| - 1];
  }

  /** The first listed file comes before every file that is not older. */
  lemma {:induction false} FirstAmongTies(made: BackupFile, rest: seq<BackupFile>) returns (p: nat)
    ensures var sorted := Sort([made] + rest, Age);
            && p < |sorted| && sorted[p] == made
            && (forall i | 0 <= i < p :: sorted[i].mtime < made.mtime)
            && (forall i | p < i < |sorted| :: sorted[i].mtime >= made.mtime)
  {
    if rest == [] {
      p := 0;
      assert [made][..0] == [];
    } else {
      var init, x := rest[..|rest| - 1], rest[|rest| - 1];
      var q := FirstAmongTies(made, init);
      SortStep(made, rest);
      hide Sort, Insert;
      p := Inserted(Sort([made] + init, Age), q, x, made);
    }
  }

  lemma {:induction false} Inserted(s: seq<BackupFile>, q: nat, x: BackupFile, made: BackupFile) returns (p: nat)
    requires q < |s| && s[q] == made
    requires forall i | 0 <= i < q :: s[i].mtime < made.mtime
    requires forall i | q < i < |s| :: s[i].mtime >= made.mtime
    ensures var t := Insert(s, x, Age);
            && p < |t| && t[p] == made
            && (forall i | 0 <= i < p :: t[i].mtime < made.mtime)
            && (forall i | p < i < |t| :: t[i].mtime >= made.mtime)
  {
    var last := s[|s| - 1];
    if Leq(Age(last), Age(x)) {
      p := q;
    } else if q == |s| - 1 {
      AllOlder(s[..|s| - 1], x, made.mtime);
      p := |Insert(s[..|s| - 1], x, Age)|;
    } else {
      p := Inserted(s[..|s| - 1], q, x, made);
    }
  }

  lemma AllOlder(s: seq<BackupFile>, x: BackupFile, t: int)
    requires x.mtime < t && forall b <- s :: b.mtime < t
    ensures forall b <- Insert(s, x, Age) :: b.mtime < t
  {
    InsertContents(s, x, Age);
    assert forall b <- Insert(s, x, Age) :: b in multiset(Insert(s, x, Age));
  }

  /** Listed first, the new backup goes when the others as new use the retention up. */
  lemma ListedFirstGoes(made: BackupFile, rest: seq<BackupFile>, retention: nat)
    requires retention >= 1 && made !in rest && |AsNew(multiset(rest), made.mtime)| >= retention
    ensures made !in Kept([made] + rest, retention)
  {
    hide Sort, AsNew, Kept;
    var all := [made] + rest;
    var sorted := Sort(all, Age);
    var p := FirstAmongTies(made, rest);
    SortIsStable(all, Age);
    SameLength(all, sorted);
    Behind(made, rest, sorted, p);
    KeptIsLast(all, retention);
    AbsentBehind(sorted, p, |sorted| - retention, made);
  }

  lemma KeptIsLast(backups: seq<BackupFile>, retention: nat)
    requires 1 <= retention <= |backups|
    ensures |Sort(backups, Age)| == |backups|
    ensures Kept(backups, retention) == Sort(backups, Age)[|backups| - retention..]
  {
    hide Sort;
    SortedLength(backups);
  }

  lemma AbsentBehind(s: seq<BackupFile>, p: nat, n: nat, made: BackupFile)
    requires p < n <= |s| && made !in s[p + 1..]
    ensures made !in s[n..]
  {
    assert s[n..] == s[p + 1..][n - p - 1..];
  }

  lemma Behind(made: BackupFile, rest: seq<BackupFile>, sorted: seq<BackupFile>, p: nat)
    requires p < |sorted| && sorted[p] == made && made !in rest && multiset(sorted) == multiset([made] + rest)
    requires forall i | 0 <= i < p :: sorted[i].mtime < made.mtime
    requires forall i | p < i < |sorted| :: sorted[i].mtime >= made.mtime
    ensures made !in sorted[p + 1..] && |sorted| - p - 1 == |AsNew(multiset(rest), made.mtime)|
  {
    var older, newer := sorted[..p], sorted[p + 1..];
    assert sorted == older + [made] + newer;
    assert multiset(older) + multiset(newer) == multiset(rest) by {
      assert multiset(sorted) == multiset(older) + multiset{made} + multiset(newer);
      assert multiset([made] + rest) == multiset{made} + multiset(rest);
      assert multiset(rest) == multiset([made] + rest) - multiset{made};
    }
    assert forall b <- older :: b.mtime < made.mtime;
    assert forall b <- newer :: b.mtime >= made.mtime;
    NewerHalf(multiset(older), multiset(newer), made.mtime);
    assert |multiset(newer)| == |newer|;
    assert made !in multiset(rest);
    assert forall b <- newer :: b in multiset(newer);
  }

  lemma NewerHalf(older: multiset<BackupFile>, newer: multiset<BackupFile>, t: int)
    requires (forall b <- older :: b.mtime < t) && forall b <- newer :: b.mtime >= t
    ensures AsNew(older + newer, t) == newer
  {
    var a := AsNew(older + newer, t);
    assert forall b :: a[b] == newer[b];
  }

  /** At a tie nothing is newer, and the new backup goes all the same if the
      directory lists it first. */
  lemma TieGoes(made: BackupFile, prev: BackupFile)
    requires made != prev && made.mtime == prev.mtime
    ensures Stale([made, prev], 1) == [made] && Stale([prev, made], 1) == [prev]
  {
    SortTwo(made, prev);
    SortTwo(prev, made);
  }

  lemma SortTwo(a: BackupFile, b: BackupFile)
    requires a.mtime <= b.mtime
    ensures Sort([a, b], Age) == [a, b]
  {
    assert [a, b][..1] == [a] && [a][..0] == [];
    assert Sort([], Age) == [];
    assert Sort([a], Age) == Insert([], a, Age) == [a];
  }

  /** Such a tie is what a rolled-back run leads to: the restored file has its old
      time, so the next run's backup has the time of the one before. */
  lemma RolledBackRunTies(x: Scenario, y: Scenario)
    requires x.preset.None? && x.f.reflectorFound && x.start.Some? && RescueWorks(x.f)
    requires 4 <= Entered(x) && !Done(x)
    ensures y.start == Final(x).mirrorlist && y.files == Final(x).files ==>
              && MadeBackup(x) in y.files && MadeBackup(y).mtime == MadeBackup(x).mtime
              && |AsNew(y.files, MadeBackup(y).mtime)| >= 1
  {
    CallsOfRun(x);
    OutcomeIff(x);
    WorkEnds(x);
    hide Tried;
    Phases(x);
    OriginalKept(x);
    if y.start == Final(x).mirrorlist && y.files == Final(x).files {
      assert MadeBackup(x) in AsNew(y.files, MadeBackup(y).mtime);
    }
  }

  lemma SuccessShrinks(x: Scenario)
    requires Honest(x) && x.retention >= 1 && Outcome(x).status == SUCCESS
    ensures Final(x).files <= x.files + multiset{MadeBackup(x)}
  {
    KeptFilesSurvive(x);
  }

  lemma Same(a: multiset<BackupFile>, b: multiset<BackupFile>)
    requires a <= b && |a| == |b|
    ensures a == b
  {
    assert b == a + (b - a);
  }

  lemma Fewer(a: multiset<BackupFile>, b: multiset<BackupFile>, extra: BackupFile)
    requires a <= b && extra in b && extra !in a
    ensures |a| < |b|
  {
    assert b == a + (b - a);
    assert extra in b - a;
  }

  /** Of as many files as `kept` has room for, one is missing from it if `kept`
      also holds a file that is not among them. */
  lemma Spare(newer: multiset<BackupFile>, kept: multiset<BackupFile>, made: BackupFile) returns (d: BackupFile)
    requires made in kept && made !in newer && |kept| <= |newer|
    ensures d in newer && newer[d] > kept[d]
  {
    if newer <= kept { Fewer(newer, kept, made); }
    d :| newer[d] > kept[d];
  }

  /** Deletion happens only after a success, once, and of exactly the stale files. */
  lemma DeletionIff(x: Scenario, stale: seq<BackupFile>)
    ensures Made(Trace(HooksOf(x)), DeleteBackups(stale))
            <==> && Outcome(x).status == SUCCESS && x.f.listing.Returns?
                 && stale == Stale(x.f.listing.value, x.retention) && stale != []
  {
    hide Made, Trace, Stale, Result, HooksOf;
    FollowUpCallIff(x, DeleteBackups(stale));
  }

  /** The backups are listed after every success, and never otherwise. */
  lemma ListingIff(x: Scenario)
    ensures Made(Trace(HooksOf(x)), ListBackups) <==> Outcome(x).status == SUCCESS
  {
    hide Made, Trace, Stale, Result, HooksOf;
    FollowUpCallIff(x, ListBackups);
  }

  lemma FollowUpCallIff(x: Scenario, c: Call)
    requires c.ListBackups? || c.DeleteBackups?
    ensures Made(Trace(HooksOf(x)), c) <==> Outcome(x).status == SUCCESS && c in CleanUp(x)
  {
    hide Made, Trace, Entered, ExecReply, Worked, Stale, Tried, CleanUp;
    var h := HooksOf(x);
    MadeInTrace(h, c);
    CallsOfHooks(x, c);
    Phases(x);
    Reaches(x);
    forall n: HookName
      ensures Reached(h, n) && Made(CallsOf(h, n), c)
              <==> n == PostExecute && Reached(h, PostExecute) && Made(h.post.calls, c)
    {
    }
  }

  /** A retention of 0 deletes nothing: all but the last 0 files is none. */
  lemma ZeroRetentionKeepsAll(backups: seq<BackupFile>)
    ensures Stale(backups, 0) == []
  {
  }

  /** Two scenarios that differ at most in the clean-up. */
  predicate Alike(x: Scenario, y: Scenario) {
    y == x.(f := x.f.(listing := y.f.listing, deletion := y.f.deletion, left := y.f.left), retention := y.retention)
  }

  /** Nothing that happens in the clean-up changes the outcome, the mirrorlist or
      the backup the task holds. */
  lemma CleanUpNeverMatters(x: Scenario, y: Scenario)
    requires Alike(x, y)
    ensures Outcome(y) == Outcome(x)
    ensures Final(y).mirrorlist == Final(x).mirrorlist && Final(y).backup == Final(x).backup
  {
    SameSteps(x, y);
    SameWork(x, y);
    hide Tried, Entered, ExecReply, Worked, Rescued, PreHook, PostHook, Stale, Rescue;
    Phases(x);
    Phases(y);
  }

  lemma SameWork(x: Scenario, y: Scenario)
    requires Alike(x, y) && Entered(x) == Entered(y)
    ensures ExecReply(x) == ExecReply(y) && Worked(x) == Worked(y)
    ensures Rescued(x, Worked(x)) == Rescued(y, Worked(y)) && PreHook(x) == PreHook(y)
  {
    hide Entered, InfoOf, Seen;
  }

  lemma {:induction false} SameSteps(x: Scenario, y: Scenario, i: nat := 0)
    requires i < 6 && forall j | 0 <= j < 6 :: Passes(x, j) == Passes(y, j)
    ensures Entered(x, i) == Entered(y, i)
    decreases 6 - i
  {
  }
}
