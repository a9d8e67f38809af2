/**
  The app manager's records and its update journal, each kept in memory and in a
  file that is replaced by rename. Memory must show what the files show, and the
  journal must fit the record it is about, so that startup can resume it.
 */
module AppManager {
  import opened Basics
  import opened Revisions
  import AppData

  type AppId = nat

  datatype ManagedApp = ManagedApp(
    active: RevisionId,
    revisions: seq<Revision>,
    enabled: bool,
    uninstalling: bool,
    purge: (bool, bool),
    generation: nat)

  const MAX_GENERATION := 0xFFFF_FFFF_FFFF_FFFF

  // ----- The update journal -----

  datatype Phase =
    | Prepared | Deactivated | DataCandidateValidated | DataCommitted | Activated
    | RollingBack | DataRollbackCommitted | RolledBack | Committed

  /** The app-data part of a transition; a tree stands for its own digest. */
  datatype DataPlan = DataPlan(
    source: Option<AppData.RevisionId>,
    candidate: AppData.RevisionId,
    sourceDigest: Option<AppData.Tree>,
    candidateDigest: Option<AppData.Tree>)

  datatype Journal = Journal(
    transition: nat,
    app: AppId,
    current: Option<RevisionId>,
    target: Revision,
    enabled: bool,
    data: Option<DataPlan>,
    phase: Phase)

  /** The phases in which a data transition must carry its digests. */
  predicate Late(phase: Phase) {
    !phase.Prepared? && !phase.Deactivated?
  }

  /** What loading the journal at startup checks. */
  predicate Accepted(j: Journal) {
    match j.data
    case None => !j.phase.DataCandidateValidated? && !j.phase.DataCommitted? && !j.phase.DataRollbackCommitted?
    case Some(d) =>
      && (d.sourceDigest.Some? <==> d.source.Some? && Late(j.phase))
      && (d.candidateDigest.Some? <==> Late(j.phase))
  }

  /** A disabled app without data to migrate is switched over on the spot. */
  predicate Immediate(j: Journal) {
    !j.enabled && j.data.None?
  }

  /** The same transition, at another phase. */
  predicate SameTransition(j: Journal, k: Journal) {
    j.transition == k.transition && j.app == k.app && j.current == k.current && j.target == k.target && j.enabled == k.enabled
    && (j.data.Some? <==> k.data.Some?)
    && (j.data.Some? ==> j.data.value.source == k.data.value.source && j.data.value.candidate == k.data.value.candidate)
  }

  // ----- Records -----

  /** An indeterminate write has already replaced the file; only its durability is in doubt. */
  datatype WriteOutcome = Written | NotCommitted | Indeterminate

  datatype Result = Ok | Err

  type Records = map<AppId, ManagedApp>

  /** The active revision is among those kept. */
  predicate RecordOk(r: ManagedApp) {
    Has(r.revisions, r.active)
  }

  function FreshRecord(revision: Revision): ManagedApp {
    ManagedApp(revision.id, [revision], true, false, (false, false), 0)
  }

  function Bump(generation: nat): nat {
    if generation < MAX_GENERATION then generation + 1 else generation
  }

  /**
    The journal fits the record: before the switch the revision it started from is
    active and the target is kept, after the switch the target is active, and a
    rollback is only ever under way while the old revision is still active.
   */
  predicate Fits(records: Records, j: Journal) {
    && j.app in records && j.current.Some?
    && var r := records[j.app];
       match j.phase
       case Activated => Has(r.revisions, j.target.id) && (r.active == j.current.value || r.active == j.target.id)
       case Committed => r.active == j.target.id
       case RollingBack => r.active == j.current.value && !Immediate(j)
       case DataRollbackCommitted => r.active == j.current.value && !Immediate(j)
       case RolledBack => r.active == j.current.value && !Immediate(j)
       case _ => Has(r.revisions, j.target.id)
                 && (r.active == j.current.value || (Immediate(j) && r.active == j.target.id))
  }

  function WithTarget(revisions: seq<Revision>, target: Revision): seq<Revision> {
    if Has(revisions, target.id) then revisions else revisions + [target]
  }

  lemma TargetThere(revisions: seq<Revision>, target: Revision)
    ensures Has(WithTarget(revisions, target), target.id)
    ensures forall id | Has(revisions, id) :: Has(WithTarget(revisions, target), id)
  {
    assert !Has(revisions, target.id) ==> target in revisions + [target];
    assert forall r | r in revisions :: r in revisions + [target];
  }

  /** Another revision is active, and the kept ones are trimmed around it; nothing else of the record moves. */
  ghost predicate Moved(before: ManagedApp, after: ManagedApp, revisions: seq<Revision>, active: RevisionId) {
    after == before.(active := active, revisions := after.revisions) && Retains(revisions, after.revisions, active)
  }

  /** No record but this one differs. */
  ghost predicate OnlyThis(before: Records, after: Records, id: AppId) {
    after.Keys == before.Keys && forall x | x in before && x != id :: after[x] == before[x]
  }

  lemma OnlyThisTrans(a: Records, b: Records, c: Records, id: AppId)
    ensures OnlyThis(a, a, id) && (OnlyThis(a, b, id) && OnlyThis(b, c, id) ==> OnlyThis(a, c, id))
  {
  }

  /** A reviewed transition: to a kept revision, or to a new one. */
  datatype Plan = Plan(
    transition: nat,
    app: AppId,
    reviewed: RevisionId,
    target: Revision,
    revert: bool,
    data: Option<(Option<AppData.RevisionId>, AppData.RevisionId)>)

  function NewJournal(p: Plan, record: ManagedApp): Journal {
    Journal(p.transition, p.app, Some(record.active), p.target, record.enabled,
            if p.data.None? then None else Some(DataPlan(p.data.value.0, p.data.value.1, None, None)),
            if record.enabled then Prepared else Deactivated)
  }

  class Manager {
    var records: Records
    var journal: Option<Journal>

    /** What the two files show. */
    var storedRecords: Records
    var storedJournal: Option<Journal>

    /** Memory shows what the files show. */
    predicate Agrees()
      reads this
    {
      records == storedRecords && journal == storedJournal
    }

    predicate Consistent()
      reads this
    {
      Agrees() && forall id | id in records :: RecordOk(records[id])
    }

    /** Whatever transition is under way can be taken up again. */
    predicate Resumable()
      reads this
    {
      journal.Some? ==> Fits(records, journal.value)
    }

    predicate Valid()
      reads this
    {
      Consistent() && Resumable()
    }

    constructor ()
      ensures Valid() && records == map[] && journal == None
    {
      records, storedRecords := map[], map[];
      journal, storedJournal := None, None;
    }

    /** Startup reads both files, and refuses a journal that does not check out. */
    method Load() returns (r: Result)
      modifies this`records, this`journal
      ensures r.Ok? <==> storedJournal.Some? ==> Accepted(storedJournal.value)
      ensures r.Ok? ==> Agrees()
      ensures r.Err? ==> records == old(records) && journal == old(journal)
    {
      if storedJournal.Some? && !Accepted(storedJournal.value) {
        return Err;
      }
      records, journal := storedRecords, storedJournal;
      return Ok;
    }

    method PersistRecords(rs: Records, outcome: WriteOutcome)
      modifies this`storedRecords
      ensures storedRecords == if outcome.NotCommitted? then old(storedRecords) else rs
    {
      if !outcome.NotCommitted? {
        storedRecords := rs;
      }
    }

    /** Change one record, and change it back if the file was not replaced. */
    method Replace(id: AppId, record: ManagedApp, outcome: WriteOutcome) returns (r: Result)
      requires Consistent() && id in records && RecordOk(record)
      modifies this`records, this`storedRecords
      ensures Consistent() && (r.Ok? <==> outcome.Written?)
      ensures records == if outcome.NotCommitted? then old(records) else old(records)[id := record]
    {
      var previous := records[id];
      records := records[id := record];
      PersistRecords(records, outcome);
      if outcome.NotCommitted? {
        records := records[id := previous];
      }
      r := if outcome.Written? then Ok else Err;
    }

    method InstallRecord(id: AppId, revision: Revision, outcome: WriteOutcome) returns (r: Result)
      requires Consistent()
      modifies this`records, this`storedRecords
      ensures Consistent() && (old(Resumable()) ==> Resumable())
      ensures r.Ok? <==> id !in old(records) && outcome.Written?
      ensures records == if id in old(records) || outcome.NotCommitted? then old(records)
                         else old(records)[id := FreshRecord(revision)]
      ensures r.Ok? ==> && records[id].active == revision.id && records[id].revisions == [revision]
                        && records[id].enabled && !records[id].uninstalling && records[id].generation == 0
    {
      if id in records {
        return Err;
      }
      assert revision in [revision];
      records := records[id := FreshRecord(revision)];
      PersistRecords(records, outcome);
      if outcome.NotCommitted? {
        records := records - {id};
        assert records == old(records);
      }
      r := if outcome.Written? then Ok else Err;
    }

    method SetEnabledState(id: AppId, enabled: bool, outcome: WriteOutcome) returns (r: Result)
      requires Consistent()
      modifies this`records, this`storedRecords
      ensures Consistent() && (old(Resumable()) ==> Resumable())
      ensures r.Ok? <==> old(id in records && !records[id].uninstalling && (records[id].enabled == enabled || outcome.Written?))
      ensures r.Ok? ==> id in records && records[id].enabled == enabled
      ensures if old(id in records && !records[id].uninstalling && records[id].enabled != enabled) && !outcome.NotCommitted?
              then && records == old(records)[id := old(records[id]).(enabled := enabled, generation := Bump(old(records[id]).generation))]
                   && (records[id].generation == old(records[id]).generation + 1 || old(records[id]).generation >= MAX_GENERATION)
              else records == old(records)
    {
      if id !in records || records[id].uninstalling {
        return Err;
      }
      if records[id].enabled == enabled {
        return Ok;
      }
      r := Replace(id, records[id].(enabled := enabled, generation := Bump(records[id].generation)), outcome);
    }

    method BeginUninstall(id: AppId, purge: (bool, bool), documentOk: bool, outcome: WriteOutcome) returns (r: Result)
      requires Consistent()
      modifies this`records, this`storedRecords
      ensures Consistent() && (old(Resumable()) ==> Resumable())
      ensures r.Ok? <==> id in old(records)
                         && (old(records[id].uninstalling) || ((purge.0 ==> documentOk) && outcome.Written?))
      ensures r.Ok? ==> id in records && records[id].uninstalling
      ensures if old(id in records && !records[id].uninstalling && (purge.0 ==> documentOk)) && !outcome.NotCommitted?
              then && records == old(records)[id := old(records[id]).(uninstalling := true, purge := purge,
                                                                      generation := Bump(old(records[id]).generation))]
                   && (records[id].generation == old(records[id]).generation + 1 || old(records[id]).generation >= MAX_GENERATION)
              else records == old(records)
    {
      if id !in records {
        return Err;
      }
      if records[id].uninstalling {
        return Ok;
      }
      if purge.0 && !documentOk {
        return Err;
      }
      r := Replace(id, records[id].(uninstalling := true, purge := purge, generation := Bump(records[id].generation)), outcome);
    }

    /**
      The journal is not consulted: a pending transition can no longer be resumed exactly
      if it is this app's and the record goes from the file.
     */
    method FinishUninstall(id: AppId, cleanupOk: bool, outcome: WriteOutcome) returns (r: Result)
      requires Consistent()
      modifies this`records, this`storedRecords
      ensures Consistent()
      ensures r.Ok? <==> old(MayFinish(id)) && cleanupOk && outcome.Written?
      ensures records == if old(MayFinish(id)) && cleanupOk && !outcome.NotCommitted? then old(records) - {id} else old(records)
      ensures old(Resumable()) ==>
                (Resumable() <==> !(journal.Some? && journal.value.app == id
                                    && old(MayFinish(id)) && cleanupOk && !outcome.NotCommitted?))
    {
      if !MayFinish(id) || !cleanupOk {
        return Err;
      }
      var remaining := records - {id};
      PersistRecords(remaining, outcome);
      if !outcome.NotCommitted? {
        records := remaining;
      }
      r := if outcome.Written? then Ok else Err;
    }

    /** The record is staged for uninstall. */
    predicate MayFinish(id: AppId)
      reads this
    {
      id in records && records[id].uninstalling
    }

    // ----- Driving the journal -----

    /** Replacing the journal's file by rename: an indeterminate answer comes after the rename. */
    method PersistJournal(j: Journal, outcome: WriteOutcome)
      modifies this`storedJournal
      ensures storedJournal == if outcome.NotCommitted? then old(storedJournal) else Some(j)
    {
      if !outcome.NotCommitted? {
        storedJournal := Some(j);
      }
    }

    /** Removing it either succeeds or leaves the file. */
    method RemoveJournal(outcome: WriteOutcome) returns (removed: bool)
      modifies this`storedJournal
      ensures removed <==> outcome.Written?
      ensures storedJournal == if removed then None else old(storedJournal)
    {
      removed := outcome.Written?;
      if removed {
        storedJournal := None;
      }
    }

    /** The journal is adopted once its file was replaced, even if its durability is in doubt. */
    method WriteUpdateJournal(j: Option<Journal>, outcome: WriteOutcome) returns (r: Result)
      requires Agrees()
      modifies this`journal, this`storedJournal
      ensures Agrees() && (r.Ok? <==> outcome.Written?)
      ensures journal == if outcome.Written? || (outcome.Indeterminate? && j.Some?) then j else old(journal)
    {
      if j.Some? {
        PersistJournal(j.value, outcome);
        if outcome.Indeterminate? {
          journal := j;
          return Err;
        } else if outcome.NotCommitted? {
          return Err;
        }
      } else {
        var removed := RemoveJournal(outcome);
        if !removed {
          return Err;
        }
      }
      journal := j;
      return Ok;
    }

    predicate IsCurrent(j: Journal)
      reads this
    {
      journal.Some? && journal.value.transition == j.transition
    }

    /** Put the record back as it was before a revision was added; if that fails the addition stays in memory. */
    method TakeBack(id: AppId, previous: ManagedApp, undo: WriteOutcome)
      requires Consistent() && id in records && RecordOk(previous) && records[id] != previous
      modifies this`records, this`storedRecords
      ensures records == if undo.Written? then old(records)[id := previous] else old(records)
      ensures OnlyThis(old(records), records, id)
      ensures Agrees() <==> !undo.Indeterminate?
    {
      var added := records[id];
      records := records[id := previous];
      PersistRecords(records, undo);
      if !undo.Written? {
        records := records[id := added];
        assert records == old(records);
      }
      assert undo.Indeterminate? ==> storedRecords[id] == previous;
    }

    /**
      Start a transition: keep the target, write the journal, and for a disabled app
      without data switch over at once. If the journal cannot be written the added
      revision is taken back; memory and file then disagree exactly if that second write
      of the records replaced the file but could not say so.
     */
    method BeginJournaledTransition(p: Plan, add: WriteOutcome, dataOk: bool, write: WriteOutcome, undo: WriteOutcome,
                                    commit: WriteOutcome, clear: WriteOutcome)
      returns (r: Result, started: Option<Journal>)
      requires Consistent()
      modifies this
      ensures forall id | id in records :: RecordOk(records[id])
      ensures journal == storedJournal
      ensures Agrees() <==> !(old(AddsTarget(p)) && add.Written? && dataOk && write.NotCommitted? && undo.Indeterminate?)
      ensures old(Resumable()) || r.Ok? ==> Resumable()
      ensures write.NotCommitted? ==> r.Err? && journal == old(journal)
      ensures started.Some? <==> old(MayBegin(p)) && (old(AddsTarget(p)) ==> add.Written?) && dataOk && write.Written?
                                 && !Immediate(NewJournal(p, old(records[p.app])))
      ensures started.Some? ==> r.Ok? && journal == started && Accepted(started.value)
                                && started.value == NewJournal(p, old(records[p.app]))
      ensures r.Ok? && started.None? ==> journal.None? && p.app in records && records[p.app].active == p.target.id
      ensures OnlyThis(old(records), records, p.app) && (!old(MayBegin(p)) ==> r.Err? && records == old(records))
      ensures started.Some? ==> && started.value.app == p.app && started.value.current == Some(p.reviewed)
                                && started.value.target == p.target
                                && started.value.enabled == old(records)[p.app].enabled
                                && started.value.phase == (if started.value.enabled then Prepared else Deactivated)
                                && (started.value.data.Some? <==> p.data.Some?)
      ensures started.Some? ==> records[p.app] == old(records)[p.app].(revisions := WithTarget(old(records)[p.app].revisions, p.target))
    {
      hide Retains, OnlyThis, Fits, Accepted;
      OnlyThisTrans(records, records, records, p.app);
      if !MayBegin(p) {
        return Err, None;
      }
      var previous := records[p.app];
      var added := AddsTarget(p);
      r := KeepTarget(p, add);
      if r.Err? || !dataOk {
        return Err, None;
      }
      ghost var kept := records;
      assert kept[p.app := previous] == old(records);
      r, started := StartJournal(p, previous, added, write, undo, commit, clear);
      OnlyThisTrans(old(records), kept, records, p.app);
    }

    /** Write the journal of a transition whose target is kept, or take the target back; switch over if that can be done at once. */
    method StartJournal(p: Plan, previous: ManagedApp, added: bool, write: WriteOutcome, undo: WriteOutcome,
                        commit: WriteOutcome, clear: WriteOutcome)
      returns (r: Result, started: Option<Journal>)
      requires Consistent() && p.app in records && RecordOk(previous) && added == !Has(previous.revisions, p.target.id)
      requires records[p.app] == previous.(revisions := WithTarget(previous.revisions, p.target))
      modifies this
      ensures (forall id | id in records :: RecordOk(records[id])) && journal == storedJournal
      ensures Agrees() <==> !(added && write.NotCommitted? && undo.Indeterminate?)
      ensures r.Ok? ==> Resumable()
      ensures old(Resumable()) && (added && old(journal).Some? ==> Fits(old(records)[p.app := previous], old(journal).value)) ==>
                Resumable()
      ensures write.NotCommitted? ==> r.Err? && journal == old(journal)
      ensures started.Some? <==> write.Written? && !Immediate(NewJournal(p, previous))
      ensures started.Some? ==> r.Ok? && journal == started && Accepted(started.value) && started.value == NewJournal(p, previous)
      ensures started.Some? ==> records == old(records)
      ensures r.Ok? && started.None? ==> journal.None? && p.app in records && records[p.app].active == p.target.id
      ensures OnlyThis(old(records), records, p.app)
    {
      hide Retains, OnlyThis;
      OnlyThisTrans(records, records, records, p.app);
      TargetThere(previous.revisions, p.target);
      var j := NewJournal(p, previous);
      r := WriteUpdateJournal(Some(j), write);
      if r.Err? {
        if !write.Indeterminate? && added {
          TakeBack(p.app, previous, undo);
        }
        return Err, None;
      }
      if Immediate(j) {
        r := SwitchAtOnce(j, commit, clear);
        return r, None;
      }
      return Ok, Some(j);
    }

    /** Add the target to the revisions of its record, unless it is there. */
    method KeepTarget(p: Plan, add: WriteOutcome) returns (r: Result)
      requires Consistent() && MayBegin(p)
      modifies this`records, this`storedRecords
      ensures Consistent() && (old(Resumable()) ==> Resumable())
      ensures r.Ok? <==> old(AddsTarget(p)) ==> add.Written?
      ensures records == if old(AddsTarget(p)) && !add.NotCommitted?
                         then old(records)[p.app := old(records)[p.app].(revisions := WithTarget(old(records)[p.app].revisions, p.target))]
                         else old(records)
      ensures r.Ok? ==> Has(records[p.app].revisions, p.target.id)
      ensures OnlyThis(old(records), records, p.app)
    {
      var previous := records[p.app];
      TargetThere(previous.revisions, p.target);
      r := Ok;
      if AddsTarget(p) {
        r := Replace(p.app, previous.(revisions := WithTarget(previous.revisions, p.target)), add);
      }
    }

    /** The switch of an app that is disabled and has no data, and the end of its journal. */
    method SwitchAtOnce(j: Journal, commit: WriteOutcome, clear: WriteOutcome) returns (r: Result)
      requires Valid() && journal == Some(j) && Immediate(j) && (j.phase.Prepared? || j.phase.Deactivated?)
      modifies this
      ensures Valid() && OnlyThis(old(records), records, j.app)
      ensures r.Ok? <==> commit.Written? && clear.Written?
      ensures r.Ok? ==> journal.None? && j.app in records && records[j.app].active == j.target.id
    {
      hide Retains;
      r := CommitRevisionTransition(j, commit);
      if r.Ok? {
        r := WriteUpdateJournal(None, clear);
      }
    }

    /** The record is still as reviewed, and a revision to go back to is kept. */
    predicate MayBegin(p: Plan)
      reads this
    {
      p.app in records && p.reviewed == records[p.app].active && (p.revert ==> Has(records[p.app].revisions, p.target.id))
    }

    /** The target is not among the revisions yet. */
    predicate AddsTarget(p: Plan)
      reads this
    {
      MayBegin(p) && !Has(records[p.app].revisions, p.target.id)
    }

    /** The target becomes active, and it and the newest other revision are kept. */
    method CommitRevisionTransition(j: Journal, outcome: WriteOutcome) returns (r: Result)
      requires Consistent()
      modifies this`records, this`storedRecords
      ensures Consistent() && (r.Ok? <==> j.app in old(records) && outcome.Written?) && OnlyThis(old(records), records, j.app)
      ensures if j.app in old(records) && !outcome.NotCommitted?
              then Moved(old(records)[j.app], records[j.app], WithTarget(old(records)[j.app].revisions, j.target), j.target.id)
                   && Has(records[j.app].revisions, j.target.id)
              else records == old(records)
    {
      if j.app !in records {
        return Err;
      }
      var record := records[j.app];
      var revisions := WithTarget(record.revisions, j.target);
      TargetThere(record.revisions, j.target);
      var kept := RetainRecentRevisions(revisions, j.target.id);
      r := Replace(j.app, record.(active := j.target.id, revisions := kept), outcome);
    }

    /** Enter a phase that leaves the record alone. */
    method EnterPhase(j: Journal, outcome: WriteOutcome) returns (r: Result)
      requires Consistent()
      modifies this`journal, this`storedJournal
      ensures Consistent() && (r.Ok? <==> old(IsCurrent(j)) && outcome.Written?)
      ensures journal == if old(IsCurrent(j)) && !outcome.NotCommitted? then Some(j) else old(journal)
    {
      if !IsCurrent(j) {
        return Err;
      }
      r := WriteUpdateJournal(Some(j), outcome);
    }

    /** Remove the journal of a transition that has ended. */
    method ClearCompletedJournal(j: Journal, outcome: WriteOutcome) returns (r: Result)
      requires Consistent()
      modifies this`journal, this`storedJournal
      ensures Consistent() && (r.Ok? <==> old(IsCurrent(j)) && (j.phase.RolledBack? || j.phase.Committed?) && outcome.Written?)
      ensures journal == if r.Ok? then None else old(journal)
    {
      if !IsCurrent(j) || !(j.phase.RolledBack? || j.phase.Committed?) {
        return Err;
      }
      r := WriteUpdateJournal(None, outcome);
    }

    /**
      The revision the transition started from becomes active again, and the journal
      goes. Whatever is written or not, the record stays valid and the journal fits it.
     */
    method FinishJournaledRollback(j: Journal, previous: RevisionId, restore: WriteOutcome, mark: WriteOutcome, clear: WriteOutcome)
      returns (r: Result)
      requires Valid() && (IsCurrent(j) ==> journal == Some(j) && j.current == Some(previous)
                                            && (j.phase.RollingBack? || j.phase.DataRollbackCommitted?))
      modifies this
      ensures Valid()
      ensures r.Ok? ==> old(IsCurrent(j)) && journal == None && j.app in records && records[j.app].active == previous
                        && old(j.app in records) && Retains(old(records[j.app].revisions), records[j.app].revisions, previous)
      ensures r.Err? ==> journal == old(journal) || journal == Some(j.(phase := RolledBack))
      ensures OnlyThis(old(records), records, j.app)
      ensures if old(IsCurrent(j) && j.app in records) && !restore.NotCommitted?
              then Moved(old(records)[j.app], records[j.app], old(records)[j.app].revisions, previous)
              else records == old(records)
      ensures old(IsCurrent(j)) && restore.Written? && mark.Written? && clear.Written? ==> r.Ok?
    {
      if !IsCurrent(j) || j.app !in records {
        return Err;
      }
      var before := records[j.app];
      var kept := RetainRecentRevisions(before.revisions, previous);
      r := Replace(j.app, before.(active := previous, revisions := kept), restore);
      if r.Err? {
        return;
      }
      r := WriteUpdateJournal(Some(j.(phase := RolledBack)), mark);
      if r.Ok? {
        r := WriteUpdateJournal(None, clear);
      }
    }
  }

  /** An app is uninstalled while its update is pending: the journal stays, and nothing can take it up. */
  method UninstalledDuringUpdate() returns (m: Manager)
    ensures fresh(m) && m.Consistent() && m.journal.Some? && !m.Resumable()
  {
    m := new Manager();
    var p := Plan(1, 7, 1, Revision(2, 20), false, None);
    var r := m.InstallRecord(7, Revision(1, 10), Written);
    var started;
    r, started := m.BeginJournaledTransition(p, Written, true, Written, Written, Written, Written);
    r := m.BeginUninstall(7, (false, false), true, Written);
    r := m.FinishUninstall(7, true, Written);
  }

  /** The journal is not written, and taking the added revision back replaces the file without saying so. */
  method RevisionNotTakenBack() returns (m: Manager)
    ensures fresh(m) && !m.Agrees() && m.journal.None?
  {
    m := new Manager();
    var p := Plan(1, 7, 1, Revision(2, 20), false, None);
    var r := m.InstallRecord(7, Revision(1, 10), Written);
    var started;
    r, started := m.BeginJournaledTransition(p, Written, true, NotCommitted, Indeterminate, Written, Written);
  }
}
