/** The reference description of a system-update run: which calls a run makes
    and how each hook ends, given every reply of the outside world. A hook is a
    flat script of calls; the run follows the script up to the first call whose
    reply stops it. */
module UpdateScript {
  import opened Std
  import opened Models
  import opened Progress
  import opened BaseTask

  const NAME := "system-update"

  /** A directory of repository databases: file name to content. */
  type SyncDb = map<string, string>

  datatype Settings = Settings(threshold: int, staleDays: int, cooldownMinutes: int)

  datatype Call =
    | ProbePacman | ProbeParu | ProbeCheckupdates | ProbeTerminal
    | ReadMirrorlist | CheckUpdates | KernelProbe | NewsQuery | Headlines | NewsConfirm
    | AurQuery | ManifestBefore | SyncBackup | PacmanUpgrade | SnapshotProbe | SnapperList
    | ParuUpgrade | ManifestAfter | ManifestDiff | PacnewList | RecordWrite
    | Paccache | Notify | SyncRestore

  /** The calls that may ask the user something: the news question, and every
      command that runs under sudo or owns the terminal. */
  predicate IsPrompt(c: Call) {
    c in {NewsConfirm, SyncBackup, PacmanUpgrade, SnapperList, ParuUpgrade, Paccache, SyncRestore}
  }

  datatype BackupReply = Copied | OsError(error: string) | OtherError(error: string)

  /** A restore copies everything, or breaks after writing some files (one of
      which may be torn, hence arbitrary content). */
  datatype RestoreReply = Restored | Broken(written: SyncDb)

  /** Every reply the outside world gives during one run. */
  datatype Faults = Faults(
    pacmanFound: bool, paruFound: bool, checkupdatesFound: bool, terminal: bool,
    mirrorlist: Reply<Option<int>>, mirrorlistCheckedAt: int,
    updates: Reply<seq<string>>,
    reboot: Reply<bool>,
    unread: Reply<bool>, newsCheckedAt: int, headlines: Reply<()>, answer: Reply<bool>, answeredAt: int,
    aur: Reply<seq<string>>,
    manifestBefore: Reply<set<string>>,
    backup: BackupReply,
    pacman: Reply<bool>, pacmanLeaves: SyncDb,
    tooling: Reply<bool>, snapshot: Reply<Option<nat>>,
    paru: Reply<bool>, paruLeaves: SyncDb,
    manifestAfter: Reply<set<string>>, diff: Reply<()>, pacnew: Reply<seq<string>>, record: Reply<()>,
    paccache: Reply<nat>, notify: Reply<()>,
    restore: RestoreReply)

  datatype Details = Details(
    packagesUpgraded: seq<string>,
    aurUpgraded: seq<string>,
    aurFailed: seq<string>,
    packagesRemoved: set<string>,
    pacnewFiles: seq<string>,
    snapshotId: Option<nat>,
    cacheFreed: Option<nat>)

  /** The part of the machine and of the shared state a run can change. */
  datatype World = World(sync: SyncDb, backup: Option<SyncDb>, lastPrompt: Option<int>)

  /** One run: its settings, the replies it gets, the world it starts in, the
      update list and snapshot id it may already hold, whether state and notifier
      exist, and the render it finds. */
  datatype Scenario = Scenario(
    settings: Settings, f: Faults, start: World, pending: Option<seq<string>>,
    snapshotBefore: Option<nat>, hasState: bool, hasNotifier: bool, shown: Shown)

  const PACMAN_FAILED := "pacman -Syu failed"

  // ----- the scripts -----

  const PRE_CHECK := [ProbePacman, ProbeParu, ProbeCheckupdates, ProbeTerminal]

  const GATES := [ReadMirrorlist, CheckUpdates, KernelProbe, NewsQuery, Headlines, NewsConfirm]

  const UPGRADE :=
    [CheckUpdates, AurQuery, ManifestBefore, SyncBackup, PacmanUpgrade, SnapshotProbe, SnapperList,
     ParuUpgrade, ManifestAfter, ManifestDiff, PacnewList, RecordWrite]

  /** How a reply steers the run: on to the next call, or out of the hook by
      skipping the task, by a failed result, or by an exception. */
  datatype Verdict = Go | Block(reason: SkipReason) | Abort(error: string) | Escape(error: string)

  function OnReply<T>(r: Reply<T>): Verdict {
    if r.Raises? then Escape(r.error) else Go
  }

  function BlockUnless(r: Reply<bool>, wanted: bool, reason: SkipReason): Verdict {
    if r.Raises? then Escape(r.error) else if r.value == wanted then Go else Block(reason)
  }

  predicate InCooldown(x: Scenario) {
    && x.hasState
    && x.start.lastPrompt.Some?
    && x.f.newsCheckedAt - x.start.lastPrompt.value < x.settings.cooldownMinutes * MINUTE
  }

  predicate Stale(x: Scenario, mtime: Option<int>) {
    mtime.Some? && (x.f.mirrorlistCheckedAt - mtime.value) / DAY > x.settings.staleDays
  }

  /** The pending repository updates: the cached list, else the query's. */
  function PendingRepo(x: Scenario): Reply<seq<string>> {
    if x.pending.Some? then Returns(x.pending.value) else x.f.updates
  }

  /** Some calls are made only in some runs. */
  predicate Applies(c: Call, x: Scenario) {
    match c
    case CheckUpdates => x.pending.None?
    case Headlines => Yes(x.f.unread) && !InCooldown(x)
    case NewsConfirm => Yes(x.f.unread) && !InCooldown(x)
    case SnapperList => Yes(x.f.tooling)
    case _ => true
  }

  function Judge(c: Call, x: Scenario): Verdict {
    var f := x.f;
    match c
    case ProbePacman => if f.pacmanFound then Go else Block(DEPENDENCY_FAILED)
    case ProbeParu => if f.paruFound then Go else Block(DEPENDENCY_FAILED)
    case ProbeCheckupdates => if f.checkupdatesFound then Go else Block(DEPENDENCY_FAILED)
    case ProbeTerminal => if f.terminal then Go else Block(DEPENDENCY_FAILED)
    case ReadMirrorlist =>
      if f.mirrorlist.Returns? && Stale(x, f.mirrorlist.value) then Block(MIRRORLIST_STALE)
      else OnReply(f.mirrorlist)
    case CheckUpdates => OnReply(f.updates)
    case KernelProbe => BlockUnless(f.reboot, false, REBOOT_REQUIRED)
    case NewsQuery => OnReply(f.unread)
    case Headlines => OnReply(f.headlines)
    case NewsConfirm => BlockUnless(f.answer, true, USER_CANCELLED)
    case AurQuery => OnReply(f.aur)
    case ManifestBefore => OnReply(f.manifestBefore)
    case SyncBackup =>
      (match f.backup case Copied => Go case OsError(e) => Abort(e) case OtherError(e) => Escape(e))
    case PacmanUpgrade => if No(f.pacman) then Escape(PACMAN_FAILED) else OnReply(f.pacman)
    case SnapshotProbe => OnReply(f.tooling)
    case SnapperList => OnReply(f.snapshot)
    case ParuUpgrade => OnReply(f.paru)
    case ManifestAfter => OnReply(f.manifestAfter)
    case ManifestDiff => OnReply(f.diff)
    case PacnewList => OnReply(f.pacnew)
    case RecordWrite => OnReply(f.record)
    case Paccache => Go
    case Notify => Go
    case SyncRestore => Go
  }

  /** The calls made, and how the script ended (`Go` means it ran to its end). */
  datatype Walked = Walked(calls: seq<Call>, end: Verdict)

  function Walk(script: seq<Call>, x: Scenario): Walked {
    if script == [] then Walked([], Go)
    else if !Applies(script[0], x) then Walk(script[1..], x)
    else match Judge(script[0], x)
      case Go => var w := Walk(script[1..], x); w.(calls := [script[0]] + w.calls)
      case v => Walked([script[0]], v)
  }

  // ----- the hooks -----

  /** Up to the upgrade the render is as the run found it, except under the
      query's spinner; from then on it is live at the reporting steps and
      stopped at every other call. */
  predicate LiveDuring(c: Call, s: Shown) {
    match c
    case ProbePacman => s.before
    case ProbeParu => s.before
    case ProbeCheckupdates => s.before
    case ProbeTerminal => s.before
    case ReadMirrorlist => s.before
    case KernelProbe => s.After()
    case NewsQuery => s.After()
    case Headlines => s.After()
    case NewsConfirm => s.After()
    case _ => c in {CheckUpdates, AurQuery, ManifestBefore, SnapshotProbe, ManifestAfter, ManifestDiff, PacnewList,
                    RecordWrite, Notify}
  }

  function Seen(calls: seq<Call>, s: Shown): seq<LogEntry<Call>> {
    seq(|calls|, i requires 0 <= i < |calls| => LogEntry.Call(calls[i], LiveDuring(calls[i], s)))
  }

  function PreHook(x: Scenario): HookRun<Call, bool> {
    var w := Walk(PRE_CHECK, x);
    HookRun(Seen(w.calls, x.shown), Returns(w.end == Go))
  }

  predicate TooFew(x: Scenario) {
    PendingRepo(x).Returns? && |PendingRepo(x).value| < x.settings.threshold
  }

  /** The threshold gate reads the list, not a reply, so it cuts the script. */
  function GateScript(x: Scenario): seq<Call> {
    if TooFew(x) then GATES[..2] else GATES
  }

  function GateHook(x: Scenario): HookRun<Call, Gate> {
    var w := Walk(GateScript(x), x);
    HookRun(Seen(w.calls, x.shown), GateReply(x, w.end))
  }

  function GateReply(x: Scenario, end: Verdict): Reply<Gate> {
    match end
    case Escape(e) => Raises(e)
    case Abort(e) => Raises(e)
    case Block(reason) => Returns(Skip(Some(reason)))
    case Go => Returns(if TooFew(x) then Skip(Some(NO_WORK_NEEDED)) else Proceed)
  }

  /** The scenario once the gates have cached the update list. */
  function Gated(x: Scenario): Scenario {
    if PendingRepo(x).Returns? then x.(pending := Some(PendingRepo(x).value)) else x
  }

  function UpgradeDetails(x: Scenario): Details
    requires Walk(UPGRADE, x).end == Go
  {
    UpgradeReplies(x);
    var ok := x.f.paru.value;
    Details(PendingRepo(x).value,
            if ok then x.f.aur.value else [],
            if ok then [] else x.f.aur.value,
            x.f.manifestBefore.value - x.f.manifestAfter.value,
            x.f.pacnew.value,
            if x.f.tooling.value then x.f.snapshot.value else x.snapshotBefore,
            None)
  }

  function ExecHook(x: Scenario): HookRun<Call, TaskResult<Details>> {
    var w := Walk(UPGRADE, x);
    HookRun(Seen(w.calls, x.shown), if w.end == Go then Returns(Upgraded(x)) else Cut(w.end))
  }

  /** The result of an upgrade that ran to its end. */
  function Upgraded(x: Scenario): TaskResult<Details>
    requires Walk(UPGRADE, x).end == Go
  {
    UpgradeReplies(x);
    if x.f.paru.value then Success(UpgradeDetails(x)) else Partial(UpgradeDetails(x))
  }

  /** The reply of an upgrade that was cut short. */
  function Cut(end: Verdict): Reply<TaskResult<Details>>
    requires end != Go
  {
    match end
    case Escape(e) => Raises(e)
    case Abort(e) => Returns(Failed(e))
    case Block(reason) => Returns(Skipped(Some(reason)))
  }

  /** Clean-up on a full success only, then the announcement; neither can raise. */
  function PostHook(x: Scenario, r: TaskResult<Details>): HookRun<Call, TaskResult<Details>> {
    HookRun(
      Seen(PostCalls(x, r.status == SUCCESS), x.shown),
      Returns(if r.status == SUCCESS && r.details.Some? && x.f.paccache.Returns?
              then r.(details := Some(r.details.value.(cacheFreed := Some(x.f.paccache.value))))
              else r))
  }

  function RollbackHook(w: World): HookRun<Call, ()> {
    HookRun(if w.backup.Some? then Seen([SyncRestore], STOPPED) else [], Returns(()))
  }

  /** The four hooks before any rescue; the rollback depends on what they left. */
  function TriedHooks(x: Scenario): Hooks<Call, Details> {
    var exec := ExecHook(Gated(x));
    Hooks(PreHook(x), GateHook(x), exec,
          if exec.reply.Returns? then PostHook(x, exec.reply.value) else HookRun([], Raises("")),
          HookRun([], Returns(())))
  }

  function HooksOf(x: Scenario): Hooks<Call, Details> {
    TriedHooks(x).(rollback := RollbackHook(Replay(Tried(TriedHooks(x)), x)))
  }

  /** The log of the two gates. */
  function GateSegments(x: Scenario): seq<LogEntry<Call>> {
    Segment(TriedHooks(x), PreCheck) + Segment(TriedHooks(x), ShouldRun)
  }

  // ----- the world a log leaves -----

  function Effect(e: LogEntry<Call>, x: Scenario, w: World): World {
    match e
    case Call(SyncBackup, _) => if x.f.backup == Copied then w.(backup := Some(w.sync)) else w
    case Call(PacmanUpgrade, _) => w.(sync := x.f.pacmanLeaves)
    case Call(ParuUpgrade, _) => w.(sync := x.f.paruLeaves)
    case Call(SyncRestore, _) =>
      if w.backup.Some? then w.(sync := RestoredSync(w.sync, w.backup.value, x.f.restore)) else w
    case Call(NewsConfirm, _) =>
      if x.f.answer.Returns? && x.hasState then w.(lastPrompt := Some(x.f.answeredAt)) else w
    case _ => w
  }

  /** The live sync database after a call that touches nothing else. */
  function SyncLeft(c: Call, x: Scenario, sync: SyncDb): SyncDb {
    match c
    case PacmanUpgrade => x.f.pacmanLeaves
    case ParuUpgrade => x.f.paruLeaves
    case _ => sync
  }

  /** A restore merges the backup into the live directory; a broken one writes
      some of the backup's files and deletes none. */
  function RestoredSync(live: SyncDb, backup: SyncDb, r: RestoreReply): SyncDb {
    match r
    case Restored => live + backup
    case Broken(written) => live + (map k | k in written && k in backup :: written[k])
  }

  function Replay(log: seq<LogEntry<Call>>, x: Scenario): World {
    if log == [] then x.start
    else Effect(log[|log| - 1], x, Replay(log[..|log| - 1], x))
  }

  // ----- facts the definitions above need -----

  lemma {:induction false} AllWent(script: seq<Call>, x: Scenario, c: Call)
    requires Walk(script, x).end == Go && c in script && Applies(c, x)
    ensures Judge(c, x) == Go
  {
    if c != script[0] {
      AllWent(script[1..], x, c);
    }
  }

  /** A script that ran to its end had every reply it needs. */
  lemma UpgradeReplies(x: Scenario)
    requires Walk(UPGRADE, x).end == Go
    ensures PendingRepo(x).Returns? && x.f.aur.Returns? && x.f.manifestBefore.Returns?
    ensures x.f.backup == Copied && Yes(x.f.pacman)
    ensures x.f.tooling.Returns? && (x.f.tooling.value ==> x.f.snapshot.Returns?) && x.f.paru.Returns?
    ensures x.f.manifestAfter.Returns? && x.f.diff.Returns? && x.f.pacnew.Returns? && x.f.record.Returns?
  {
    RepliesUpToPacman(UPGRADE, x);
    RepliesAfterPacman(UPGRADE, x);
  }

  lemma RepliesUpToPacman(script: seq<Call>, x: Scenario)
    requires Walk(script, x).end == Go
    requires CheckUpdates in script && AurQuery in script && ManifestBefore in script
    requires SyncBackup in script && PacmanUpgrade in script
    ensures PendingRepo(x).Returns? && x.f.aur.Returns? && x.f.manifestBefore.Returns?
    ensures x.f.backup == Copied && Yes(x.f.pacman)
  {
    if x.pending.None? { AllWent(script, x, CheckUpdates); }
    AllWent(script, x, AurQuery);
    AllWent(script, x, ManifestBefore);
    AllWent(script, x, SyncBackup);
    AllWent(script, x, PacmanUpgrade);
  }

  lemma RepliesAfterPacman(script: seq<Call>, x: Scenario)
    requires Walk(script, x).end == Go
    requires SnapshotProbe in script && SnapperList in script && ParuUpgrade in script
    requires ManifestAfter in script && ManifestDiff in script && PacnewList in script && RecordWrite in script
    ensures x.f.tooling.Returns? && (x.f.tooling.value ==> x.f.snapshot.Returns?) && x.f.paru.Returns?
    ensures x.f.manifestAfter.Returns? && x.f.diff.Returns? && x.f.pacnew.Returns? && x.f.record.Returns?
  {
    AllWent(script, x, SnapshotProbe);
    if Yes(x.f.tooling) { AllWent(script, x, SnapperList); }
    AllWent(script, x, ParuUpgrade);
    AllWent(script, x, ManifestAfter);
    AllWent(script, x, ManifestDiff);
    AllWent(script, x, PacnewList);
    AllWent(script, x, RecordWrite);
  }

  // ----- following a script one call at a time -----

  /** `done` has been called and the script `all` is at position `k`. */
  ghost predicate At(x: Scenario, all: seq<Call>, done: seq<Call>, k: nat) {
    k <= |all| && Walk(all, x) == Walked(done + Walk(all[k..], x).calls, Walk(all[k..], x).end)
  }

  lemma StepGo(x: Scenario, all: seq<Call>, done: seq<Call>, k: nat)
    requires At(x, all, done, k) && k < |all| && Applies(all[k], x) && Judge(all[k], x) == Go
    ensures At(x, all, done + [all[k]], k + 1)
  {
  }

  lemma StepOver(x: Scenario, all: seq<Call>, done: seq<Call>, k: nat)
    requires At(x, all, done, k) && k < |all| && !Applies(all[k], x)
    ensures At(x, all, done, k + 1)
  {
  }

  lemma SeenSnoc(done: seq<Call>, c: Call, s: Shown)
    ensures Seen(done + [c], s) == Seen(done, s) + [LogEntry.Call(c, LiveDuring(c, s))]
  {
  }

  lemma SeenRestore()
    ensures Seen([SyncRestore], STOPPED) == [LogEntry.Call(SyncRestore, false)]
  {
  }

  lemma ReplayNothing(x: Scenario)
    ensures Replay([], x) == x.start
  {
  }

  lemma PreSegment(x: Scenario)
    ensures Segment(TriedHooks(x), PreCheck) == [Hook(PreCheck)] + PreHook(x).calls
  {
    hide Walk, Seen;
  }

  lemma ReplaySnoc(past: seq<LogEntry<Call>>, e: LogEntry<Call>, x: Scenario)
    ensures Replay(past + [e], x) == Effect(e, x, Replay(past, x))
  {
  }

  function PostCalls(x: Scenario, success: bool): seq<Call> {
    (if success then [Paccache] else []) + (if x.hasNotifier then [Notify] else [])
  }

  lemma PostLog(x: Scenario, success: bool)
    ensures Seen(PostCalls(x, success), x.shown)
            == (if success then [LogEntry.Call(Paccache, false)] else [])
               + (if x.hasNotifier then [LogEntry.Call(Notify, true)] else [])
  {
  }

  /** The follow-up changes nothing in the world. */
  lemma PostReplay(x: Scenario, success: bool, past: seq<LogEntry<Call>>)
    ensures Replay(past + Seen(PostCalls(x, success), x.shown), x) == Replay(past, x)
  {
    hide Replay, Seen;
    PostLog(x, success);
    var first := if success then [LogEntry.Call(Paccache, false)] else [];
    var second := if x.hasNotifier then [LogEntry.Call(Notify, true)] else [];
    Idle(past, first, x);
    Idle(past + first, second, x);
    assert past + (first + second) == past + first + second;
  }

  lemma Idle(past: seq<LogEntry<Call>>, log: seq<LogEntry<Call>>, x: Scenario)
    requires |log| <= 1 && forall e <- log :: e.Call? && (e.call == Paccache || e.call == Notify)
    ensures Replay(past + log, x) == Replay(past, x)
  {
    hide Replay;
    if log == [] {
      assert past + log == past;
    } else {
      assert log[0] in log && log == [log[0]];
      ReplaySnoc(past, log[0], x);
    }
  }

  /** Caching the update list does not change what calls do to the world. */
  lemma {:induction false} ReplayGated(log: seq<LogEntry<Call>>, x: Scenario)
    ensures Replay(log, Gated(x)) == Replay(log, x)
  {
    if log != [] {
      ReplayGated(log[..|log| - 1], x);
    }
  }

  /** The rollback hook does not change what the other hooks do. */
  lemma SameTried(x: Scenario)
    ensures Tried(HooksOf(x)) == Tried(TriedHooks(x)) && Escaped(HooksOf(x)) == Escaped(TriedHooks(x))
    ensures Result(HooksOf(x)) == Result(TriedHooks(x))
    ensures HooksOf(x).rollback == RollbackHook(Replay(Tried(TriedHooks(x)), x))
  {
    var h, g := HooksOf(x), TriedHooks(x);
    assert Segment(h, PreCheck) == Segment(g, PreCheck) && Segment(h, ShouldRun) == Segment(g, ShouldRun);
    assert Segment(h, Execute) == Segment(g, Execute) && Segment(h, PostExecute) == Segment(g, PostExecute);
  }
}
