/**
  An app update from its journal's first phase to its last: the host's driver over the
  app manager and the app's data, cut short anywhere and taken up again at startup.
 */
module AppUpdate {
  import opened Basics
  import opened Revisions
  import opened AppManager
  import AppData

  /** The app data is where the journal's phase says it is. */
  predicate DataFits(j: Journal, t: AppData.Transition, state: Option<AppData.State>, dirs: AppData.Directories) {
    j.data.Some? ==>
      && t.Valid() && j.data.value.source == t.source && j.data.value.candidate == t.candidate
      && match j.phase
         case Prepared => t.Underway(state, dirs) && state == t.state
         case Deactivated => t.Underway(state, dirs) && state == t.state
         case DataCandidateValidated => t.Underway(state, dirs) && Validated(j.data.value, t, dirs)
         case DataCommitted => t.Underway(state, dirs) && state == Some(t.Committed())
         case Activated => state.Some? && state.value.active == t.candidate
         case Committed => state.Some? && state.value.active == t.candidate
         case RollingBack => t.Underway(state, dirs)
         case DataRollbackCommitted => t.RolledBack(state, dirs)
         case RolledBack => t.RolledBack(state, dirs)
  }

  /** The recorded digests are those of the source and of the candidate. */
  predicate Validated(d: DataPlan, t: AppData.Transition, dirs: AppData.Directories) {
    && t.candidate in dirs && d.candidateDigest == Some(dirs[t.candidate])
    && (t.source.Some? ==> t.source.value in t.dirs && d.sourceDigest == Some(t.dirs[t.source.value]))
  }

  /** A transition is under way, and records, journal and data fit together. */
  ghost predicate Underway(m: Manager, d: AppData.AppDataStore, t: AppData.Transition, j: Journal)
    reads m, d
  {
    m.Valid() && m.journal.Some? && SameTransition(m.journal.value, j) && DataFits(m.journal.value, t, d.state, d.dirs)
  }

  /** The update took place: code and data are the target's. */
  ghost predicate Switched(m: Manager, d: AppData.AppDataStore, t: AppData.Transition, j: Journal)
    reads m, d
  {
    && m.Valid() && m.journal.None? && j.app in m.records && m.records[j.app].active == j.target.id
    && (j.data.Some? ==> d.state.Some? && d.state.value.active == t.candidate)
  }

  /** It did not: code and data are what they were. */
  ghost predicate Restored(m: Manager, d: AppData.AppDataStore, t: AppData.Transition, j: Journal)
    reads m, d
  {
    && m.Valid() && m.journal.None? && j.app in m.records && Some(m.records[j.app].active) == j.current
    && (j.data.Some? ==> t.RolledBack(d.state, d.dirs))
  }

  /** What the world does during one attempt: write outcomes, interruptions, and whether backends start. */
  datatype World = World(
    deactivates: bool, deactivated: WriteOutcome,
    stageFuse: nat, migrates: bool, left: AppData.Tree, validated: WriteOutcome,
    dataFuse: nat, dataCommitted: WriteOutcome,
    targetStarts: bool, activated: WriteOutcome, commit: WriteOutcome,
    retention: nat, pruneFuse: nat, pruneFails: bool, committed: WriteOutcome, clear: WriteOutcome,
    rollingBack: WriteOutcome, rollbackFuse: nat, dataRolledBack: WriteOutcome,
    previousStarts: bool, restore: WriteOutcome, rolledBack: WriteOutcome)
  {
    /** The candidate is staged, migrated and validated. */
    predicate Migrates(t: AppData.Transition, dirs: AppData.Directories) {
      stageFuse >= AppData.StageLength(t, dirs) && migrates
    }

    /** Everything up to the switch works, but for what the publisher's code does. */
    predicate ProceedsSmoothly() {
      deactivates && deactivated.Written? && validated.Written? && dataFuse > 0 && dataCommitted.Written?
    }

    predicate CommitsSmoothly() {
      activated.Written? && commit.Written? && committed.Written? && clear.Written?
    }

    predicate RollsBackSmoothly() {
      rollingBack.Written? && rollbackFuse >= 3 && dataRolledBack.Written? && previousStarts
      && restore.Written? && rolledBack.Written? && clear.Written?
    }
  }

  datatype Outcome = Completed | Reverted | Interrupted

  // ----- Steps of the manager that touch app data -----

  /** Source and candidate are what the recorded digests say. */
  predicate AsValidated(d: DataPlan, dirs: AppData.Directories) {
    && d.candidate in dirs && d.candidateDigest == Some(dirs[d.candidate])
    && (d.source.Some? ==> d.source.value in dirs && d.sourceDigest == Some(dirs[d.source.value]))
  }

  /** The candidate becomes active data, if source and candidate are still what was validated; otherwise nothing changes. */
  method CommitDataCandidate(m: Manager, d: AppData.AppDataStore, t: AppData.Transition, j: Journal, w: World)
    returns (r: Result, j': Journal)
    requires m.Valid() && m.journal == Some(j) && j.data.Some? && j.phase.DataCandidateValidated?
    requires t.Valid() && j.data.value.source == t.source && j.data.value.candidate == t.candidate && t.Underway(d.state, d.dirs)
    modifies m, d
    ensures old(Underway(m, d, t, j)) ==> Underway(m, d, t, j) && (Accepted(j) ==> Accepted(m.journal.value))
    ensures r.Ok? ==> old(AsValidated(j.data.value, d.dirs)) && w.dataCommitted.Written?
    ensures r.Ok? ==> m.journal == Some(j') && j' == j.(phase := DataCommitted) && d.state == Some(t.Committed())
    ensures old(AsValidated(j.data.value, d.dirs)) && w.dataFuse > 0 && w.dataCommitted.Written? ==> r.Ok?
    ensures !old(AsValidated(j.data.value, d.dirs)) ==> unchanged(m) && unchanged(d)
    ensures m.records == old(m.records) && d.dirs == old(d.dirs)
  {
    j' := j;
    var plan := j.data.value;
    if plan.source.Some? {
      if plan.sourceDigest.None? || plan.source.value !in d.dirs || Some(d.dirs[plan.source.value]) != plan.sourceDigest {
        return Err, j';
      }
    }
    if plan.candidateDigest.None? || plan.candidate !in d.dirs || Some(d.dirs[plan.candidate]) != plan.candidateDigest {
      return Err, j';
    }
    d.fuse := w.dataFuse;
    var done := d.CommitCandidate(t);
    if !done.Done? {
      return Err, j';
    }
    j' := j.(phase := DataCommitted);
    r := m.EnterPhase(j', w.dataCommitted);
  }

  /** With the target active and old backups gone, the journal ends. */
  method CloseCommitted(m: Manager, d: AppData.AppDataStore, t: AppData.Transition, j: Journal, w: World) returns (r: Result)
    requires m.journal == Some(j) && Underway(m, d, t, j) && j.phase.Activated? && m.records[j.app].active == j.target.id
    modifies m
    ensures r.Ok? ==> Switched(m, d, t, j)
    ensures r.Err? ==> Underway(m, d, t, j) && (Accepted(j) ==> Accepted(m.journal.value))
    ensures r.Ok? <==> w.committed.Written? && w.clear.Written?
  {
    var j' := j.(phase := Committed);
    r := m.EnterPhase(j', w.committed);
    if r.Ok? {
      r := m.ClearCompletedJournal(j', w.clear);
    }
  }

  method PruneAfterCommit(d: AppData.AppDataStore, t: AppData.Transition, j: Journal, w: World) returns (r: Result)
    requires DataFits(j, t, d.state, d.dirs) && j.phase.Activated?
    modifies d
    ensures DataFits(j, t, d.state, d.dirs)
    ensures j.data.None? ==> r.Ok?
    ensures j.data.Some? && w.retention > 0 && !w.pruneFails ==>
              (r.Ok? <==> && old(AppData.Loadable(d.state, d.dirs))
                          && w.pruneFuse >= AppData.PruneLength(old(d.state).value, w.retention))
  {
    if j.data.None? {
      return Ok;
    }
    d.fuse := w.pruneFuse;
    var pruned := d.PruneBackups(w.retention, w.pruneFails);
    r := if pruned.Done? then Ok else Err;
  }

  method SwitchRevision(m: Manager, d: AppData.AppDataStore, t: AppData.Transition, j: Journal, w: World) returns (r: Result)
    requires m.journal == Some(j) && Underway(m, d, t, j) && j.phase.Activated?
    modifies m`records, m`storedRecords
    ensures Underway(m, d, t, j) && (r.Ok? ==> m.records[j.app].active == j.target.id)
    ensures w.commit.Written? ==> r.Ok?
  {
    hide Retains;
    r := m.CommitRevisionTransition(j, w.commit);
  }

  /** Switch over: nothing is rolled back from here on. */
  method CommitJournaledTransition(m: Manager, d: AppData.AppDataStore, t: AppData.Transition, j: Journal, w: World)
    returns (r: Result)
    requires m.journal == Some(j) && Underway(m, d, t, j)
    requires if j.data.Some? then j.phase.DataCommitted? || j.phase.Activated?
             else j.phase.Prepared? || j.phase.Deactivated? || j.phase.Activated?
    modifies m, d
    ensures r.Ok? ==> Switched(m, d, t, j)
    ensures r.Err? ==> Underway(m, d, t, j) && (Accepted(j) ==> Accepted(m.journal.value))
    ensures j.data.None? && w.CommitsSmoothly() ==> r.Ok?
    ensures j.data.Some? && w.CommitsSmoothly() && w.retention > 0 && !w.pruneFails ==>
              (r.Ok? <==> && old(AppData.Loadable(d.state, d.dirs))
                          && w.pruneFuse >= AppData.PruneLength(old(d.state).value, w.retention))
  {
    var j' := j.(phase := Activated);
    r := m.EnterPhase(j', w.activated);
    if r.Err? {
      return;
    }
    r := SwitchRevision(m, d, t, j', w);
    if r.Err? {
      return;
    }
    hide AppManager.Fits, AppData.Loadable;
    r := PruneAfterCommit(d, t, j', w);
    if r.Ok? {
      r := CloseCommitted(m, d, t, j', w);
    }
  }

  /** Leave the forward path: the journal says so first, then the data goes back. */
  method BeginJournaledRollback(m: Manager, d: AppData.AppDataStore, t: AppData.Transition, j: Journal, w: World)
    returns (r: Result, j': Journal)
    requires m.journal == Some(j) && Underway(m, d, t, j) && !Immediate(j) && MayRollBack(j.phase)
    modifies m, d
    ensures Underway(m, d, t, j)
    ensures r.Ok? ==> m.journal == Some(j') && j' == j.(phase := if j.data.Some? then DataRollbackCommitted else RollingBack)
    ensures if w.rollingBack.NotCommitted? then m.journal == Some(j) && r.Err? else IsRollingBack(m.journal.value, j)
    ensures w.rollingBack.Written? && w.rollbackFuse >= 3 && w.dataRolledBack.Written? ==> r.Ok?
  {
    j' := j.(phase := RollingBack);
    r := m.EnterPhase(j', w.rollingBack);
    if r.Err? || j.data.None? {
      return;
    }
    d.fuse := w.rollbackFuse;
    var done := d.RollbackTransition(t, AppData.EMPTY_TREE);
    if !done.Done? {
      return Err, j';
    }
    j' := j.(phase := DataRollbackCommitted);
    r := m.EnterPhase(j', w.dataRolledBack);
  }

  /** The same journal, on its way back. */
  predicate IsRollingBack(k: Journal, j: Journal) {
    && k == j.(phase := k.phase)
    && (k.phase.RollingBack? || (k.phase.DataRollbackCommitted? && j.data.Some?) || k.phase.RolledBack?)
  }

  /** The phases from which the driver rolls back: none after the switch. */
  predicate MayRollBack(phase: Phase) {
    !phase.Activated? && !phase.Committed? && !phase.RolledBack? && !phase.DataRollbackCommitted?
  }

  /** A journal on its way back is loaded again exactly if it has no data part or its candidate had been validated. */
  lemma RollingBackAcceptedIff(k: Journal, j: Journal)
    requires Accepted(j) && IsRollingBack(k, j)
    ensures Accepted(k) <==> j.data.None? || Late(j.phase)
  {
  }

  /**
    What startup loads: without data a journal is never at a data phase; with data it has no digest
    before the candidate was validated, and afterwards the candidate's and, if there was a source,
    the source's.
   */
  lemma AcceptedIff(j: Journal)
    ensures Accepted(j) <==>
            if j.data.None? then j.phase in {Prepared, Deactivated, Activated, RollingBack, RolledBack, Committed}
            else if j.phase in {Prepared, Deactivated} then j.data.value.sourceDigest.None? && j.data.value.candidateDigest.None?
            else j.data.value.candidateDigest.Some? && (j.data.value.sourceDigest.Some? <==> j.data.value.source.Some?)
  {
  }

  // ----- The host's driver -----

  method RollBack(m: Manager, d: AppData.AppDataStore, t: AppData.Transition, j: Journal, w: World) returns (o: Outcome)
    requires m.journal == Some(j) && Underway(m, d, t, j) && !Immediate(j)
    requires MayRollBack(j.phase) || (j.phase.DataRollbackCommitted? && j.data.Some?)
    modifies m, d
    ensures !o.Completed? && (o.Reverted? ==> Restored(m, d, t, j))
    ensures o.Interrupted? ==> Underway(m, d, t, j)
    ensures o.Interrupted? ==> if MayRollBack(j.phase) && w.rollingBack.NotCommitted? then m.journal == Some(j)
                               else IsRollingBack(m.journal.value, j)
    ensures w.RollsBackSmoothly() ==> o.Reverted?
    ensures j.enabled && !w.previousStarts ==> o.Interrupted?
  {
    var j' := j;
    if !j.phase.DataRollbackCommitted? {
      var begun;
      begun, j' := BeginJournaledRollback(m, d, t, j, w);
      if begun.Err? {
        return Interrupted;
      }
    }
    if j.enabled && !w.previousStarts {
      return Interrupted;
    }
    hide Retains;
    var done := m.FinishJournaledRollback(j', j'.current.value, w.restore, w.rolledBack, w.clear);
    o := if done.Ok? then Reverted else Interrupted;
  }

  /** Stage, migrate and validate the candidate; whether it succeeds or not, the publisher's code may leave any tree in it. */
  method PrepareData(m: Manager, d: AppData.AppDataStore, t: AppData.Transition, j: Journal, w: World)
    returns (digests: Option<(Option<AppData.Tree>, AppData.Tree)>)
    requires m.journal == Some(j) && Underway(m, d, t, j) && j.data.Some? && j.phase.Deactivated?
    modifies d
    ensures Underway(m, d, t, j) && (digests.Some? <==> old(w.Migrates(t, d.dirs)))
    ensures digests.Some? ==>
              && t.candidate in d.dirs && digests.value.1 == d.dirs[t.candidate]
              && (t.source.Some? <==> digests.value.0.Some?)
              && (t.source.Some? ==> t.source.value in t.dirs && digests.value.0.value == t.dirs[t.source.value])
  {
    d.fuse := w.stageFuse;
    var staged, digest := d.StageCandidate(t, AppData.EMPTY_TREE, AppData.EMPTY_TREE, None);
    if !staged.Done? {
      return None;
    }
    d.dirs := d.dirs[t.candidate := w.left];
    return if w.migrates then Some((digest, w.left)) else None;
  }

  /** Whether the attempt reaches the migration and the migration fails. */
  predicate FailsEarly(j: Journal, w: World, t: AppData.Transition, dirs: AppData.Directories) {
    && j.data.Some? && !Late(j.phase)
    && (j.phase.Prepared? ==> w.deactivates && w.deactivated.Written?)
    && !w.Migrates(t, dirs)
  }

  /**
    Why an attempt may end as it does: it completes if the switch was made already, or nothing
    stands in the way of the target; it goes back if it was on its way back already, the
    migration fails, or the target does not start.
   */
  predicate Chosen(j: Journal, w: World, t: AppData.Transition, dirs: AppData.Directories, o: Outcome) {
    match o
    case Completed =>
      j.phase.Activated? || j.phase.Committed?
      || (Forward(j.phase) && !FailsEarly(j, w, t, dirs) && (!j.enabled || w.targetStarts))
    case Reverted =>
      j.phase.RollingBack? || j.phase.DataRollbackCommitted? || j.phase.RolledBack?
      || (Forward(j.phase) && (FailsEarly(j, w, t, dirs) || (j.enabled && !w.targetStarts)))
    case Interrupted => true
  }

  /** Stop the old backend; a journal past that point is left as it is. */
  method Deactivate(m: Manager, d: AppData.AppDataStore, t: AppData.Transition, j: Journal, w: World) returns (r: Result, j': Journal)
    requires m.journal == Some(j) && Underway(m, d, t, j) && Forward(j.phase)
    modifies m`journal, m`storedJournal
    ensures Underway(m, d, t, j) && (Accepted(j) ==> Accepted(m.journal.value))
    ensures r.Ok? <==> j.phase.Prepared? ==> w.deactivates && w.deactivated.Written?
    ensures r.Ok? ==> m.journal == Some(j') && j' == j.(phase := if j.phase.Prepared? then Deactivated else j.phase)
  {
    if !j.phase.Prepared? {
      return Ok, j;
    }
    if !w.deactivates {
      return Err, j;
    }
    j' := j.(phase := Deactivated);
    r := m.EnterPhase(j', w.deactivated);
  }

  /** The phases on the way to the switch. */
  predicate Forward(phase: Phase) {
    phase.Prepared? || phase.Deactivated? || phase.DataCandidateValidated? || phase.DataCommitted?
  }

  method MarkDataCandidateValidated(m: Manager, d: AppData.AppDataStore, t: AppData.Transition, j: Journal,
                                    digests: (Option<AppData.Tree>, AppData.Tree), w: World)
    returns (r: Result, j': Journal)
    requires m.journal == Some(j) && Underway(m, d, t, j) && j.data.Some? && j.phase.Deactivated?
    requires t.candidate in d.dirs && digests.1 == d.dirs[t.candidate]
    requires t.source.Some? <==> digests.0.Some?
    requires t.source.Some? ==> t.source.value in t.dirs && digests.0.value == t.dirs[t.source.value]
    modifies m`journal, m`storedJournal
    ensures Underway(m, d, t, j) && (Accepted(j) ==> Accepted(m.journal.value))
    ensures r.Ok? <==> w.validated.Written?
    ensures r.Ok? ==> m.journal == Some(j') && SameTransition(j', j) && j'.phase.DataCandidateValidated?
  {
    if j.data.value.source.Some? != digests.0.Some? {
      return Err, j;
    }
    var plan := j.data.value.(sourceDigest := digests.0, candidateDigest := Some(digests.1));
    j' := j.(data := Some(plan), phase := DataCandidateValidated);
    r := m.EnterPhase(j', w.validated);
  }

  /** Code and data are prepared: the target starts, or everything goes back. */
  method ActivateTarget(m: Manager, d: AppData.AppDataStore, t: AppData.Transition, j: Journal, w: World) returns (o: Outcome)
    requires m.journal == Some(j) && Underway(m, d, t, j) && Forward(j.phase)
    requires j.data.Some? ==> j.phase.DataCommitted?
    requires j.data.None? ==> j.phase.Prepared? || j.phase.Deactivated?
    modifies m, d
    ensures Ends(m, d, t, j, o)
    ensures (o.Completed? ==> !j.enabled || w.targetStarts) && (o.Reverted? ==> j.enabled && !w.targetStarts)
    ensures o.Interrupted? && Accepted(j) ==> Accepted(m.journal.value)
    ensures Smooth(j, t, w) ==> !o.Interrupted?
  {
    if !j.enabled || w.targetStarts {
      if j.data.Some? {
        AppData.UnderwayIsLoadable(t, d.state, d.dirs);
      }
      hide Switched, Underway, AppData.Loadable;
      var done := CommitJournaledTransition(m, d, t, j, w);
      return if done.Ok? then Completed else Interrupted;
    }
    o := RollBack(m, d, t, j, w);
    if o.Interrupted? && Accepted(j) && m.journal != Some(j) {
      RollingBackAcceptedIff(m.journal.value, j);
    }
  }

  /** An attempt completes the update, restores what was, or leaves a transition that fits together. */
  ghost predicate Ends(m: Manager, d: AppData.AppDataStore, t: AppData.Transition, j: Journal, o: Outcome)
    reads m, d
  {
    match o
    case Completed => Switched(m, d, t, j)
    case Reverted => Restored(m, d, t, j)
    case Interrupted => Underway(m, d, t, j)
  }

  /** Nothing but the publisher's code may fail, and pruning has time to finish. */
  predicate Smooth(j: Journal, t: AppData.Transition, w: World) {
    && w.ProceedsSmoothly() && w.CommitsSmoothly() && w.RollsBackSmoothly()
    && (j.data.Some? ==> w.retention > 0 && !w.pruneFails && w.pruneFuse >= AppData.PruneLength(t.Committed(), w.retention))
  }

  /** From the data candidate's validation on. */
  method CommitDataAndActivate(m: Manager, d: AppData.AppDataStore, t: AppData.Transition, j: Journal, w: World)
    returns (o: Outcome)
    requires m.journal == Some(j) && Underway(m, d, t, j) && Forward(j.phase) && (j.data.Some? ==> Late(j.phase))
    requires j.data.None? ==> j.phase.Prepared? || j.phase.Deactivated?
    modifies m, d
    ensures Ends(m, d, t, j, o)
    ensures (o.Completed? ==> !j.enabled || w.targetStarts) && (o.Reverted? ==> j.enabled && !w.targetStarts)
    ensures o.Interrupted? && Accepted(j) ==> Accepted(m.journal.value)
    ensures Smooth(j, t, w) ==> !o.Interrupted?
  {
    var j' := j;
    if j.phase.DataCandidateValidated? {
      var committed;
      committed, j' := CommitDataCandidate(m, d, t, j, w);
      if committed.Err? {
        return Interrupted;
      }
    }
    o := ActivateTarget(m, d, t, j', w);
  }

  method ContinueJournaledTransition(m: Manager, d: AppData.AppDataStore, t: AppData.Transition, j: Journal, w: World)
    returns (o: Outcome)
    requires m.journal == Some(j) && Underway(m, d, t, j) && Forward(j.phase) && Accepted(j)
    modifies m, d
    ensures Ends(m, d, t, j, o)
    ensures o.Interrupted? ==>
              (Accepted(m.journal.value) <==> !(old(FailsEarly(j, w, t, d.dirs)) && !w.rollingBack.NotCommitted?))
    ensures Smooth(j, t, w) ==> !o.Interrupted?
    ensures old(Chosen(j, w, t, d.dirs, o))
    ensures old(FailsEarly(j, w, t, d.dirs)) && j.enabled && !w.previousStarts ==> o.Interrupted?
  {
    hide Switched, Restored, Underway, Ends, Smooth, FailsEarly;
    Meanings(j, t, d.dirs, w);
    var deactivated, j1 := Deactivate(m, d, t, j, w);
    if deactivated.Err? {
      StillUnderway(m, d, t, j);
      return Interrupted;
    }
    SameUnderway(m, d, t, j, j1);
    Meanings(j1, t, d.dirs, w);
    if j1.phase.Deactivated? && j1.data.Some? {
      var digests := PrepareData(m, d, t, j1, w);
      if digests.None? {
        o := RollBack(m, d, t, j1, w);
        EndsSomehow(m, d, t, j1, o);
        SameEnds(m, d, t, j1, j, o);
        if o.Interrupted? && m.journal != Some(j1) {
          RollingBackAcceptedIff(m.journal.value, j1);
        }
        return;
      }
      ghost var j0 := j1;
      var marked;
      marked, j1 := MarkDataCandidateValidated(m, d, t, j1, digests.value, w);
      if marked.Err? {
        StillUnderway(m, d, t, j0);
        SameEnds(m, d, t, j0, j, Interrupted);
        return Interrupted;
      }
      SameUnderway(m, d, t, j0, j1);
      Meanings(j1, t, d.dirs, w);
    }
    o := CommitDataAndActivate(m, d, t, j1, w);
    SameEnds(m, d, t, j1, j, o);
  }

  /** What an attempt from here on needs, and when it fails early. */
  lemma Meanings(j: Journal, t: AppData.Transition, dirs: AppData.Directories, w: World)
    ensures Smooth(j, t, w) <==>
            && w.ProceedsSmoothly() && w.CommitsSmoothly() && w.RollsBackSmoothly()
            && (j.data.Some? ==> w.retention > 0 && !w.pruneFails && w.pruneFuse >= AppData.PruneLength(t.Committed(), w.retention))
    ensures FailsEarly(j, w, t, dirs) <==>
            && j.data.Some? && !Late(j.phase) && (j.phase.Prepared? ==> w.deactivates && w.deactivated.Written?)
            && !w.Migrates(t, dirs)
  {
  }

  lemma SameUnderway(m: Manager, d: AppData.AppDataStore, t: AppData.Transition, j: Journal, j1: Journal)
    requires Underway(m, d, t, j) && SameTransition(j, j1)
    ensures Underway(m, d, t, j1)
  {
  }

  lemma EndsSomehow(m: Manager, d: AppData.AppDataStore, t: AppData.Transition, j: Journal, o: Outcome)
    requires !o.Completed? && (o.Reverted? ==> Restored(m, d, t, j)) && (o.Interrupted? ==> Underway(m, d, t, j))
    ensures Ends(m, d, t, j, o) && (o.Interrupted? ==> m.journal.Some?)
  {
  }

  lemma StillUnderway(m: Manager, d: AppData.AppDataStore, t: AppData.Transition, j: Journal)
    requires Underway(m, d, t, j)
    ensures Ends(m, d, t, j, Interrupted) && m.journal.Some?
  {
  }

  /** How an attempt ended does not depend on the phase it was at. */
  lemma SameEnds(m: Manager, d: AppData.AppDataStore, t: AppData.Transition, j1: Journal, j: Journal, o: Outcome)
    requires SameTransition(j1, j) && Ends(m, d, t, j1, o)
    ensures Ends(m, d, t, j, o) && (o.Interrupted? ==> m.journal.Some?)
  {
  }

  /** The data document as the switch finds it. */
  function AtSwitch(j: Journal, t: AppData.Transition, state: Option<AppData.State>): AppData.State {
    if j.phase.Activated? && state.Some? then state.value else t.Committed()
  }

  /** As `Smooth`, from any phase. */
  predicate Resumes(j: Journal, t: AppData.Transition, state: Option<AppData.State>, dirs: AppData.Directories, w: World) {
    && w.ProceedsSmoothly() && w.CommitsSmoothly() && w.RollsBackSmoothly()
    && (j.data.Some? ==> w.retention > 0 && !w.pruneFails
                         && w.pruneFuse >= AppData.PruneLength(AtSwitch(j, t, state), w.retention))
  }

  /**
    Startup takes the journal up at whatever phase it finds. An attempt without
    interruption ends the transition, unless an interrupted pruning of backups left data
    that does not load.
   */
  method RecoverManagedAppTransition(m: Manager, d: AppData.AppDataStore, t: AppData.Transition, w: World) returns (o: Outcome)
    requires m.journal.Some? && Underway(m, d, t, m.journal.value) && Accepted(m.journal.value)
    modifies m, d
    ensures Ends(m, d, t, old(m.journal.value), o) && old(Chosen(m.journal.value, w, t, d.dirs, o))
    ensures o.Interrupted? ==>
              (Accepted(m.journal.value)
               <==> !(old(FailsEarly(m.journal.value, w, t, d.dirs)) && !w.rollingBack.NotCommitted?))
    ensures old(FailsEarly(m.journal.value, w, t, d.dirs) && m.journal.value.enabled) && !w.previousStarts ==> o.Interrupted?
    ensures old(Resumes(m.journal.value, t, d.state, d.dirs, w)) ==>
              (o.Interrupted? <==> old(m.journal.value.phase.Activated? && m.journal.value.data.Some?
                                       && !AppData.Loadable(d.state, d.dirs)))
  {
    var j := m.journal.value;
    if Forward(j.phase) {
      o := ContinueJournaledTransition(m, d, t, j, w);
    } else if j.phase.Activated? {
      var done := CommitJournaledTransition(m, d, t, j, w);
      o := if done.Ok? then Completed else Interrupted;
    } else if j.phase.RollingBack? || j.phase.DataRollbackCommitted? {
      o := RollBack(m, d, t, j, w);
      if o.Interrupted? && m.journal != Some(j) {
        RollingBackAcceptedIff(m.journal.value, j);
      }
    } else {
      var cleared := m.ClearCompletedJournal(j, w.clear);
      o := if cleared.Err? then Interrupted else if j.phase.Committed? then Completed else Reverted;
    }
  }

  /** One attempt: the journal and data it began with, what the world did, and how it ended. */
  datatype Attempt = Attempt(journal: Journal, dirs: AppData.Directories, world: World, outcome: Outcome)

  /** Interrupted after its migration failed and the way back was recorded. */
  predicate Blocks(a: Attempt, t: AppData.Transition) {
    FailsEarly(a.journal, a.world, t, a.dirs) && !a.world.rollingBack.NotCommitted? && a.outcome.Interrupted?
  }

  /**
    An update cut short any number of times, anywhere, with the host restarted in
    between; `ran` are the attempts made. As long as startup accepts the journal, the
    update ends with code and data both switched, or both as they were, or can still be
    taken up. Startup rejects the journal exactly if an attempt was interrupted after its
    migration failed and the way back was recorded.
   */
  method UpdateWithRestarts(m: Manager, d: AppData.AppDataStore, t: AppData.Transition, j: Journal, ws: seq<World>)
    returns (o: Outcome, loads: bool, ghost ran: seq<Attempt>)
    requires m.journal == Some(j) && Underway(m, d, t, j) && Forward(j.phase) && Accepted(j)
    modifies m, d
    ensures loads ==> Ends(m, d, t, j, o) && (o.Interrupted? ==> Accepted(m.journal.value))
    ensures !loads ==> o.Interrupted? && Underway(m, d, t, j) && !Accepted(m.storedJournal.value)
    ensures |ran| <= |ws| && forall i | 0 <= i < |ran| :: ran[i].world == ws[i] && SameTransition(ran[i].journal, j)
    ensures ran != [] ==> ran[0].journal == j && ran[0].dirs == old(d.dirs)
    ensures forall a | a in ran :: Chosen(a.journal, a.world, t, a.dirs, a.outcome)
    ensures loads && ran != [] ==> ran[|ran| - 1].outcome == o
    ensures |ran| < |ws| && loads ==> !o.Interrupted?
    ensures !loads <==> exists a :: a in ran && Blocks(a, t)
    ensures (forall w | w in ws :: w.stageFuse >= 5 && w.migrates) ==> loads
    ensures j.data.None? ==> loads && (ws != [] && Smooth(j, t, ws[|ws| - 1]) ==> !o.Interrupted?)
  {
    hide AppManager.Fits, DataFits, FailsEarly, Chosen, AppData.Loadable;
    o, loads, ran := Interrupted, true, [];
    for i := 0 to |ws|
      invariant loads && o.Interrupted? && Underway(m, d, t, j) && |ran| == i && (i > 0 ==> ran[i - 1].outcome == o)
      invariant forall a | a in ran :: Chosen(a.journal, a.world, t, a.dirs, a.outcome)
      invariant forall k | 0 <= k < i :: ran[k].world == ws[k] && SameTransition(ran[k].journal, j)
      invariant if i == 0 then m.journal == Some(j) && d.dirs == old(d.dirs)
                else ran[0].journal == j && ran[0].dirs == old(d.dirs)
      invariant Accepted(m.journal.value) <==> !exists a :: a in ran && Blocks(a, t)
      invariant i > 0 && j.data.None? ==> !Smooth(j, t, ws[i - 1])
    {
      var loaded := m.Load();
      if loaded.Err? {
        BlockedByFailure(ran, ws, t, j);
        return Interrupted, false, ran;
      }
      ghost var now := (m.journal.value, d.dirs);
      o := RecoverManagedAppTransition(m, d, t, ws[i]);
      ghost var made := Attempt(now.0, now.1, ws[i], o);
      MadeOne(ran, made, t);
      ran := ran + [made];
      if !o.Interrupted? {
        return o, true, ran;
      }
    }
    var loaded := m.Load();
    loads := loaded.Ok?;
    if !loads {
      BlockedByFailure(ran, ws, t, j);
    }
  }

  lemma MadeOne(ran: seq<Attempt>, a: Attempt, t: AppData.Transition)
    requires !exists b :: b in ran && Blocks(b, t)
    ensures (exists b :: b in ran + [a] && Blocks(b, t)) <==> Blocks(a, t)
  {
    assert a in ran + [a];
  }

  lemma BlockedByFailure(ran: seq<Attempt>, ws: seq<World>, t: AppData.Transition, j: Journal)
    requires exists a :: a in ran && Blocks(a, t)
    requires |ran| <= |ws| && forall i | 0 <= i < |ran| :: ran[i].world == ws[i] && SameTransition(ran[i].journal, j)
    ensures j.data.Some? && exists w :: w in ws && !(w.stageFuse >= 5 && w.migrates)
  {
    var a :| a in ran && Blocks(a, t);
    var i :| 0 <= i < |ran| && ran[i] == a;
    assert ws[i] in ws;
  }

  /**
    The failing history: an update with data, whose migration fails and whose old
    version then does not start again. The rollback is recorded without the digests that
    startup demands of it.
   */
  method FailedMigrationBlocksStartup() returns (m: Manager, loaded: Result)
    ensures loaded.Err?
  {
    m := new Manager();
    var t := AppData.Transition(None, 1, None, map[]);
    var d := new AppData.AppDataStore(None, map[]);
    var r := m.InstallRecord(7, Revision(1, 10), Written);
    var p := Plan(1, 7, 1, Revision(2, 20), false, Some((None, 1)));
    var started;
    r, started := m.BeginJournaledTransition(p, Written, true, Written, Written, Written, Written);
    var w := World(true, Written, 5, false, 30, Written, 1, Written, true, Written, Written, 1, 9, false, Written, Written,
                   Written, 3, Written, false, Written, Written);
    var o := RecoverManagedAppTransition(m, d, t, w);
    loaded := m.Load();
  }
}
