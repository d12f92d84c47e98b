/** How every mirrorlist update ends and what it leaves, read off the replies
    alone. */
module MirrorlistOutcome {
  import opened Std
  import opened Models
  import opened BaseTask
  import opened MirrorlistFile
  import opened MirrorlistUpdate
  import opened MirrorlistProperties

  /** The metadata of a file, as a result reports it. */
  function About(f: File): Info {
    Info(|Mirrors(f.text)|, ProtocolsOf(Mirrors(f.text)), Some(f.mtime))
  }

  /** The first thing that went wrong before the backup. */
  function ErrorBeforeBackup(f: Faults): Option<string> {
    if f.sudo.Raises? then Some(f.sudo.error)
    else if !f.sudo.value then Some("Could not obtain sudo credentials")
    else if f.readOld.Raises? then Some(f.readOld.error)
    else if f.statOld.Raises? then Some(f.statOld.error)
    else None
  }

  /** And after it. */
  function ErrorAfterBackup(f: Faults): Option<string> {
    if f.reflector.Raises? then Some(f.reflector.error)
    else if !f.reflector.value then Some("Reflector failed")
    else if f.leaves.None? || f.readForValidation.Raises? || |Mirrors(f.leaves.value.text)| == 0
         then Some("New mirrorlist validation failed")
    else if f.readNew.Raises? then Some(f.readNew.error)
    else if f.statNew.Raises? then Some(f.statNew.error)
    else None
  }

  function ResultOf(x: Scenario): TaskResult<Details> {
    var f := x.f;
    if !f.reflectorFound || x.start.None? then Skipped(Some(DEPENDENCY_FAILED))
    else if ErrorBeforeBackup(f).Some? then Failed(ErrorBeforeBackup(f).value)
    else if f.backup.Raises?
         then Failed(f.backup.error, Some(Details(None, None, About(x.start.value), Info(0, {}, None), None)))
    else if ErrorAfterBackup(f).Some? then Failed(ErrorAfterBackup(f).value)
    else
      var before, after := About(x.start.value), About(f.leaves.value);
      TaskResult(SUCCESS, None, None,
                 Some(Details(Some(before.totalMirrors), Some(after.totalMirrors), before, after, Some(f.backupPath))), 0)
  }

  /** Every run ends as the table says. */
  lemma EveryResult(x: Scenario)
    ensures Outcome(x) == ResultOf(x)
  {
    hide Tried, Mirrors, ProtocolsOf, HooksOf, Result;
    Phases(x);
    Endings(x);
    if x.f.reflectorFound && x.start.Some? { Replied(x); }
  }

  lemma Replied(x: Scenario)
    requires x.f.reflectorFound && x.start.Some?
    ensures ExecReply(x).Raises? ==> ResultOf(x) == Failed(ExecReply(x).error)
    ensures ExecReply(x).Returns? ==> ResultOf(x) == ExecReply(x).value
  {
    hide Mirrors, ProtocolsOf;
    assert forall i | 0 <= i < Entered(x) - 1 :: Passes(x, i);
  }

  /** Reflector was started. */
  predicate Started(x: Scenario) {
    x.f.reflectorFound && x.start.Some? && ErrorBeforeBackup(x.f).None? && x.f.backup.Returns?
  }

  /** The work raised, so that the run is rescued. */
  predicate Raised(x: Scenario) {
    && x.f.reflectorFound && x.start.Some?
    && (ErrorBeforeBackup(x.f).Some? || (x.f.backup.Returns? && ErrorAfterBackup(x.f).Some?))
  }

  /** The world that every run leaves: the backup it holds, the mirrorlist, and
      the backup directory with the new file less the stale ones. */
  lemma EveryWorld(x: Scenario)
    ensures var f, w := x.f, Final(x);
            && w.backup == (if Started(x) then x.start else x.preset)
            && w.mirrorlist == (if Raised(x) && w.backup.Some? && Yes(f.backupThere)
                                then (if f.restore.Restored? then w.backup else f.restore.leaves)
                                else if Started(x) then f.leaves else x.start)
            && w.files == if !Started(x) then x.files
                          else
                            var all := x.files + multiset{BackupFile(f.backupPath, x.start.value.mtime)};
                            if ErrorAfterBackup(f).Some? || f.listing.Raises? then all
                            else
                              var stale := Stale(f.listing.value, x.retention);
                              if stale == [] then all
                              else if f.deletion.Returns? then all - multiset(stale)
                              else f.left
  {
    hide Tried, Mirrors, ProtocolsOf, HooksOf, Result, Stale, ErrorBeforeBackup, ErrorAfterBackup;
    Phases(x);
    Endings(x);
    if x.f.reflectorFound && x.start.Some? { WorkLeaves(x); }
  }

  lemma WorkLeaves(x: Scenario)
    requires x.f.reflectorFound && x.start.Some?
    ensures Raised(x) <==> ExecReply(x).Raises?
    ensures Started(x) <==> Entered(x) >= 4
    ensures Started(x) && ErrorAfterBackup(x.f).None? <==>
              ExecReply(x).Returns? && ExecReply(x).value.status == SUCCESS
  {
    hide Mirrors, ProtocolsOf;
    assert forall i | 0 <= i < Entered(x) - 1 :: Passes(x, i);
  }
}
