/**
  The exact conditions for a restart: what must hold before work is prepared, before
  clicked work is dispatched and before an app is installed, so that the store can be
  restarted from however the session goes on.
 */
module RestartConditions {
  import opened Basics
  import opened Domain
  import opened Ledger
  import opened Broker
  import opened ActionLog
  import opened ReplayAgreement
  import opened DoubleInvocation
  import opened KernelState
  import opened ActionPath
  import opened Lifecycle
  import opened KernelInvariant
  import opened ActionInvariant
  import opened LifecycleInvariant
  import opened Recovery
  import opened Runs
  import opened Reservations
  import opened RestartDiscipline
  import opened CarefulRuns

  // ----- Finishing as the kernel finishes -----

  /** Recorded as begun are only work whose approval was asked, and the invocations in `again`. */
  predicate BeginsOnly(b: Book, again: set<InvId>, ext: seq<Record>) {
    forall r | r in ext && r.event.Invoked? :: r.inv in b && (b[r.inv].prompted || r.inv in again)
  }

  /**
    Every way of finishing the open work and ending runs can be paired up. Unprompted
    work is not recorded as begun a second time, except the invocations in `again`.
   */
  ghost predicate ReplaysAgain(records: seq<Record>, again: set<InvId>)
    requires Track(records, false).Some?
  {
    var b := Track(records, false).value;
    forall ext: seq<Record> ::
      Track(records + ext, false).Some? && FinishesOnly(b, ext) && BeginsOnly(b, again, ext) ==> Replay(records + ext).Some?
  }

  /** The pending work that dispatch will record as begun. */
  function ToBegin(s: Kernel): set<InvId> {
    set id | id in s.pending && !s.pending[id].authorized && s.pending[id].grant.condition == RequiresApproval
  }

  lemma {:induction false} WaitingIsPrompted(records: seq<Record>, strict: bool, id: InvId)
    requires Track(records, strict).Some? && id in Track(records, strict).value
    ensures Track(records, strict).value[id].phase in {Requested, Granted} ==> Track(records, strict).value[id].prompted
  {
    var n := |records| - 1;
    if id in Track(records[..n], strict).value {
      WaitingIsPrompted(records[..n], strict, id);
    }
  }

  /** The strict protocol begins only what was prompted. */
  lemma {:induction false} StrictBeginsPrompted(records: seq<Record>, ext: seq<Record>)
    requires Track(records, true).Some? && Track(records + ext, true).Some?
    requires FinishesOnly(Track(records, true).value, ext)
    ensures BeginsOnly(Track(records, true).value, {}, ext)
    decreases |ext|
  {
    if ext != [] {
      var n := |ext| - 1;
      assert (records + ext)[..|records + ext| - 1] == records + ext[..n];
      StrictBeginsPrompted(records, ext[..n]);
      assert forall r | r in ext :: r in ext[..n] || r == ext[n];
      if ext[n].event.Invoked? {
        assert ext[n] in ext;
        PromptedForGood(records, ext[..n], ext[n].inv);
        WaitingIsPrompted(records + ext[..n], true, ext[n].inv);
      }
    }
  }

  /** And where nothing unprompted is begun again, the permissive protocol is the strict one. */
  lemma {:induction false} PromptedIsStrict(records: seq<Record>, ext: seq<Record>)
    requires Track(records, true).Some? && Track(records + ext, false).Some?
    requires FinishesOnly(Track(records, true).value, ext) && BeginsOnly(Track(records, true).value, {}, ext)
    ensures Track(records + ext, true).Some? && Track(records + ext, true) == Track(records + ext, false)
    decreases |ext|
  {
    if ext == [] {
      assert records + ext == records;
      StrictIsPermissive(records);
    } else {
      var n := |ext| - 1;
      assert (records + ext)[..|records + ext| - 1] == records + ext[..n];
      PromptedIsStrict(records, ext[..n]);
      if ext[n].event.Invoked? {
        assert ext[n] in ext;
        PromptedForGood(records, ext[..n], ext[n].inv);
      }
    }
  }

  /** If only prompted work is still to begin, the two notions of finishing agree. */
  lemma ReplaysAgainIff(records: seq<Record>, again: set<InvId>)
    requires Track(records, true).Some?
    ensures Track(records, false) == Track(records, true)
    ensures ReplaysAgain(records, again) ==> ReplaysForever(records)
    ensures (forall id | id in again && id in Track(records, true).value :: Track(records, true).value[id].prompted) ==>
              (ReplaysForever(records) ==> ReplaysAgain(records, again))
  {
    hide Track, Replay, FinishesOnly;
    StrictIsPermissive(records);
    var b := Track(records, true).value;
    if ReplaysAgain(records, again) {
      forall ext: seq<Record> | Track(records + ext, true).Some? && FinishesOnly(b, ext)
        ensures Replay(records + ext).Some?
      {
        StrictBeginsPrompted(records, ext);
        StrictIsPermissive(records + ext);
      }
    }
    if ReplaysForever(records) && forall id | id in again && id in b :: b[id].prompted {
      forall ext: seq<Record> | Track(records + ext, false).Some? && FinishesOnly(b, ext) && BeginsOnly(b, again, ext)
        ensures Replay(records + ext).Some?
      {
        PromptedIsStrict(records, ext);
      }
    }
  }

  // ----- A click taken for approval -----

  /**
    Unprompted work recorded as begun a second time: cancelling what is pending in its
    run and ending the run is a way of finishing that no restart accepts.
   */
  lemma SecondBegin(s: Kernel, id: InvId) returns (ext: seq<Record>)
    requires Inv(s) && !s.recovery && Steady(s.ledger.records) && Track(s.ledger.records, false).Some?
    requires id in s.pending && id in BookOf(s) && !BookOf(s)[id].prompted
    ensures var again := Record(Invoked(s.pending[id].run, s.pending[id].Key()), id);
            && Track(s.ledger.records + [again], false) == Some(BookOf(s))
            && Track(s.ledger.records + [again] + ext, false).Some?
            && FinishesOnly(BookOf(s), [again] + ext) && BeginsOnly(BookOf(s), {}, ext)
            && Replay(s.ledger.records + [again] + ext).None?
    ensures ext == Close(s, PendingOfRun(s, s.pending[id].run)) + Ends([s.pending[id].run], RunFailed)
  {
    hide Inv, Steady, Replay, Close;
    var p, records := s.pending[id], s.ledger.records;
    var again, ids := Record(Invoked(p.run, p.Key()), id), PendingOfRun(s, p.run);
    ext := Close(s, ids) + Ends([p.run], RunFailed);
    EntryFacts(s, id);
    SteadyReplays(records);
    SteadyParts(records);
    StrictIsPermissive(records);
    TrackAppend(records, again, false);
    assert BookOf(s)[id := BookOf(s)[id]] == BookOf(s);
    ClosingFinishes(s, ids, [p.run], RunFailed);
    ClosingTracks(s, ids, p.run, again);
    EndsRun(Close(s, ids), p.run, RunFailed);
    DoublyBegunCannotRestart(records, id, ext);
  }

  lemma SteadyParts(records: seq<Record>)
    requires Steady(records)
    ensures InStep(records) && SlotsSafe(Track(records, true).value)
  {
  }

  lemma EndsRun(rs: seq<Record>, run: RunId, how: RunEnd)
    ensures exists r :: r in rs + Ends([run], how) && r.event.RunEnded? && r.event.run == run
  {
    var r := Record(RunEnded(run, how), 0);
    assert Ends([run], how)[0] == r;
    assert r in rs + Ends([run], how);
  }

  lemma ClosingTracks(s: Kernel, ids: set<InvId>, run: RunId, again: Record)
    requires Inv(s) && !s.recovery && Track(s.ledger.records, false).Some? && Active(s.ledger.runs, run)
    requires ids == PendingOfRun(s, run) && Track(s.ledger.records + [again], false) == Some(BookOf(s))
    ensures Track(s.ledger.records + [again] + (Close(s, ids) + Ends([run], RunFailed)), false).Some?
  {
    hide Inv, Track, Close;
    var b := BookOf(s);
    CloseRecords(s, ids);
    forall id | IsOpen(CloseIds(b, ids), id) ensures b[id].run != run {
      OpenFacts(s, id);
      EntryFacts(s, id);
    }
    TrackEnds(CloseIds(b, ids), [run], RunFailed, false);
    TrackAllConcat(b, Close(s, ids), Ends([run], RunFailed), false);
    TrackAppendAll(s.ledger.records + [again], Close(s, ids) + Ends([run], RunFailed), false);
  }

  lemma DispatchRecords(s: Kernel, id: InvId, t: Clock)
    requires id in s.pending && Dispatch(s, id, t).1 == Dispatched
    ensures var p := s.pending[id];
            Dispatch(s, id, t).0.ledger.records == if p.grant.condition == RequiresApproval
                                                   then s.ledger.records + [Record(Invoked(p.run, p.Key()), id)]
                                                   else s.ledger.records
    ensures s.pending[id].grant.condition == RequiresApproval ==> !s.recovery
  {
    hide Write, Revalidate;
  }

  /**
    Dispatching work that was begun without a prompt leaves a ledger that can be paired
    up however the work finishes, exactly if its grant does not require approval.
   */
  lemma DispatchSafeIff(s: Kernel, id: InvId, t: Clock)
    requires Inv(s) && Steady(s.ledger.records)
    requires id in s.tokens && s.tokens[id] == Answered(None) && id in s.pending && !s.pending[id].authorized
    requires Authorize(s, id, t).1 == Dispatched
    ensures Track(Authorize(s, id, t).0.ledger.records, false).Some?
    ensures ReplaysAgain(Authorize(s, id, t).0.ledger.records, {}) <==> s.pending[id].grant.condition != RequiresApproval
  {
    hide Inv, Dispatch, Steady, Track, Replay, ReplaysAgain;
    EntryFacts(s, id);
    SteadyReplays(s.ledger.records);
    SteadyParts(s.ledger.records);
    DispatchRecords(s.(tokens := s.tokens - {id}), id, t);
    StrictIsPermissive(s.ledger.records);
    if s.pending[id].grant.condition == RequiresApproval {
      var ext := SecondBegin(s, id);
      Refuted(Authorize(s, id, t).0.ledger.records, {}, ext);
    } else {
      SafeReplaysForever(s.ledger.records);
      ReplaysAgainIff(s.ledger.records, {});
    }
  }

  lemma Refuted(records: seq<Record>, again: set<InvId>, ext: seq<Record>)
    requires Track(records, false).Some? && Track(records + ext, false).Some?
    requires FinishesOnly(Track(records, false).value, ext) && BeginsOnly(Track(records, false).value, again, ext)
    requires Replay(records + ext).None?
    ensures !ReplaysAgain(records, again)
  {
  }

  // ----- Preparing -----

  lemma Answers(s: Kernel, a: Attempt, direct: bool, t: Clock)
    requires Prepare(s, a, direct, t).1.WorkPrepared? || Prepare(s, a, direct, t).1.Refusal?
    ensures Reap(s, t.now).1 && !Reap(s, t.now).0.recovery && Inadmissible(Reap(s, t.now).0, a).None?
  {
    hide Write, Check;
  }

  /** What preparing with a grant at hand leaves, if it is answered. */
  lemma OpenFactsAfter(s: Kernel, a: Attempt, direct: bool, app: AppId, grant: Grant, t: Clock)
    requires Declares(s.registry, a.slot.cap) && Open(s, a, direct, app, grant, t).1.WorkPrepared?
    ensures var s' := Open(s, a, direct, app, grant, t).0;
            && s'.ledger.records == s.ledger.records + [Record(OpeningEvent(s, a, direct, grant), s.nextInv)]
            && s'.pending.Keys == s.pending.Keys + {s.nextInv} && !s'.recovery
            && (forall id | id in s.pending && id != s.nextInv :: s'.pending[id] == s.pending[id])
            && s'.pending[s.nextInv].grant == grant && !s'.pending[s.nextInv].authorized
            && s'.pending[s.nextInv].run == a.run && s'.pending[s.nextInv].slot == a.slot
  {
    hide Write;
  }

  lemma OpenAnswers(s: Kernel, a: Attempt, direct: bool, app: AppId, grant: Grant, t: Clock)
    requires Declares(s.registry, a.slot.cap)
    ensures Open(s, a, direct, app, grant, t).1.WorkPrepared? || Open(s, a, direct, app, grant, t).1.Failure?
  {
    hide Write;
  }

  lemma OpeningReplaysIff(s: Kernel, a: Attempt, direct: bool, app: AppId, grant: Grant, t: Clock)
    requires Inv(s) && Replays(s) && !s.recovery && Declares(s.registry, a.slot.cap)
    requires Inv(Open(s, a, direct, app, grant, t).0) && Open(s, a, direct, app, grant, t).1.WorkPrepared?
    ensures var s' := Open(s, a, direct, app, grant, t).0;
            && Track(s'.ledger.records, false).Some?
            && (ReplaysAgain(s'.ledger.records, ToBegin(s')) <==>
                  !ConsentInstead(s, a, direct, grant)
                  && if grant.condition == RequiresApproval then Unused(s.pending, a) else Shared(s.pending, a, grant.id))
  {
    hide Inv, Open, Unused, Shared, Steady, ReplaysForever, ReplaysAgain, Track;
    var s', r := Open(s, a, direct, app, grant, t).0, Record(OpeningEvent(s, a, direct, grant), s.nextInv);
    OpenFactsAfter(s, a, direct, app, grant, t);
    NextIsNew(s);
    BothBooks(s);
    StillSteady(s);
    OpeningSafeIff(s.ledger.records, r);
    OpenedBook(s.ledger.records, r);
    ReplaysAgainIff(s'.ledger.records, ToBegin(s'));
    if ConsentInstead(s, a, direct, grant) {
      if SafeToOpen(BookOf(s), r.event) {
        SteadyStep(s.ledger.records, r);
        ClickRefutes(s', s.nextInv);
      }
    } else {
      OpeningIff(s, a, direct, grant);
      assert forall id | id in ToBegin(s') && id in BookOf(s') :: BookOf(s')[id].prompted;
    }
  }

  lemma OpenedBook(records: seq<Record>, r: Record)
    requires Track(records, true).Some? && OpensWork(Track(records, true).value, r)
    requires r.event.ApprovalRequested? || r.event.Invoked?
    ensures Track(records + [r], true).Some?
    ensures var b, b' := Track(records, true).value, Track(records + [r], true).value;
            && b'.Keys == b.Keys + {r.inv} && (forall id | id in b :: b'[id] == b[id])
            && b'[r.inv].prompted == r.event.ApprovalRequested?
  {
    TrackAppend(records, r, true);
  }

  lemma ClickRefutes(s: Kernel, id: InvId)
    requires Inv(s) && !s.recovery && Steady(s.ledger.records) && Track(s.ledger.records, false).Some?
    requires id in s.pending && id in BookOf(s) && !BookOf(s)[id].prompted && id in ToBegin(s)
    ensures !ReplaysAgain(s.ledger.records, ToBegin(s))
  {
    hide Inv, Steady, Replay, Track, ReplaysAgain;
    var again := Record(Invoked(s.pending[id].run, s.pending[id].Key()), id);
    var ext := SecondBegin(s, id);
    assert s.ledger.records + [again] + ext == s.ledger.records + ([again] + ext);
    Refuted(s.ledger.records, ToBegin(s), [again] + ext);
  }

  /**
    Exactly when preparing work leaves a ledger that can be paired up however the
    kernel finishes the open work.
   */
  lemma PreparingSafeIff(s: Kernel, a: Attempt, direct: bool, t: Clock)
    requires Inv(s) && Replays(s)
    requires Prepare(s, a, direct, t).1.WorkPrepared? || Prepare(s, a, direct, t).1.Refusal?
    ensures var s' := Prepare(s, a, direct, t).0;
            && Track(s'.ledger.records, false).Some?
            && (ReplaysAgain(s'.ledger.records, ToBegin(s')) <==> CarefulAttempt(Reap(s, t.now).0, a, direct, t))
  {
    hide Inv, Write, Reap, Replays, Check, Open, Unused, Shared, ReplaysAgain, Track;
    Answers(s, a, direct, t);
    ReapReplays(s, t.now);
    ReapInv(s, t.now);
    PrepareInv(s, a, direct, t);
    var s1 := Reap(s, t.now).0;
    var check := Check(s1.broker, t.wall, s1.ledger.runs[a.run].app, a.slot);
    if check.Denied? {
      RefusingReplaysIff(s1, a, check.reason);
    } else {
      OpenAnswers(s1, a, direct, s1.ledger.runs[a.run].app, check.grant, t);
      OpeningReplaysIff(s1, a, direct, s1.ledger.runs[a.run].app, check.grant, t);
    }
  }

  lemma RefusingReplaysIff(s: Kernel, a: Attempt, reason: DenialReason)
    requires Inv(s) && Replays(s) && !s.recovery
    requires Write(s, [Record(Refused(a.run, a.slot, reason), 0)]).1
    ensures var s' := Write(s, [Record(Refused(a.run, a.slot, reason), 0)]).0;
            && Track(s'.ledger.records, false).Some?
            && (ReplaysAgain(s'.ledger.records, ToBegin(s')) <==> Unused(s.pending, a))
  {
    hide Inv, Write, Unused, Steady, ReplaysForever, ReplaysAgain, Track;
    var r := Record(Refused(a.run, a.slot, reason), 0);
    NextIsNew(s);
    BothBooks(s);
    StillSteady(s);
    SlotFreeIff(s, a);
    LoneRefusalSafeIff(s.ledger.records, r);
    TrackAppend(s.ledger.records, r, true);
    ReplaysAgainIff(s.ledger.records + [r], ToBegin(s));
  }

  // ----- Surface actions -----

  /** The run a surface action starts is new: no pending work belongs to it. */
  lemma OwnRunIsEmpty(s: Kernel, app: AppId, a: Attempt, t: Clock)
    requires Inv(s) && StartRun(s, app, None).1.RunOpened?
    ensures StartRun(s, app, None).1.run == s.nextId
    ensures Unused(Reap(StartRun(s, app, None).0, t.now).0.pending, a.(run := s.nextId))
  {
    hide Inv, Write, Close;
    var s1 := Reap(StartRun(s, app, None).0, t.now).0;
    forall id | id in s.pending ensures s.pending[id].run != s.nextId {
      EntryFacts(s, id);
      RunIdsBelow(s, s.pending[id].run);
    }
    assert s1.pending.Keys <= s.pending.Keys && forall id | id in s1.pending :: s1.pending[id] == s.pending[id];
  }

  lemma RunIdsBelow(s: Kernel, run: RunId)
    requires Inv(s) && run in s.ledger.runs
    ensures run < s.nextId
  {
    hide HandlersOk, PendingOk, BookOk, DiskOk;
  }

  lemma SurfaceIsPrepare(s: Kernel, app: AppId, a: Attempt, t: Clock)
    requires SurfaceAction(s, app, a, t).1.WorkPrepared? || SurfaceAction(s, app, a, t).1.Refusal?
    ensures StartRun(s, app, None).1.RunOpened?
    ensures SurfaceAction(s, app, a, t)
            == Prepare(StartRun(s, app, None).0, a.(run := StartRun(s, app, None).1.run), app == a.slot.cap.provider, t)
  {
    hide Prepare, EndRun, Write;
  }

  /** Whether the click is taken for the approval that the chosen grant requires. */
  predicate ClickTaken(s: Kernel, app: AppId, a: Attempt, t: Clock) {
    var s1, a1 := Reap(StartRun(s, app, None).0, t.now).0, a.(run := s.nextId);
    && Inadmissible(s1, a1).None?
    && var check := Check(s1.broker, t.wall, s1.ledger.runs[a1.run].app, a1.slot);
       !check.Denied? && ConsentInstead(s1, a1, app == a.slot.cap.provider, check.grant)
  }

  /**
    A surface action leaves a ledger that can be paired up however the kernel finishes
    the open work, exactly if its click is not taken for a required approval.
   */
  lemma SurfaceSafeIff(s: Kernel, app: AppId, a: Attempt, t: Clock)
    requires Inv(s) && Replays(s)
    requires SurfaceAction(s, app, a, t).1.WorkPrepared? || SurfaceAction(s, app, a, t).1.Refusal?
    ensures var s' := SurfaceAction(s, app, a, t).0;
            && Track(s'.ledger.records, false).Some?
            && (ReplaysAgain(s'.ledger.records, ToBegin(s')) <==> !ClickTaken(s, app, a, t))
  {
    hide Inv, Replays, StartRun, Prepare, Reap, Check, ReplaysAgain, Track, Unused, Inadmissible, SurfaceAction;
    SurfaceIsPrepare(s, app, a, t);
    var s1 := StartRun(s, app, None).0;
    StartRunInv(s, app, None);
    StartRunReplays(s, app, None);
    OwnRunIsEmpty(s, app, a, t);
    Answers(s1, a.(run := s.nextId), app == a.slot.cap.provider, t);
    PreparingSafeIff(s1, a.(run := s.nextId), app == a.slot.cap.provider, t);
    UnusedIsShared(Reap(s1, t.now).0.pending, a.(run := s.nextId));
  }

  lemma UnusedIsShared(pending: PendingTable, a: Attempt)
    requires Unused(pending, a)
    ensures forall grant :: Shared(pending, a, grant)
  {
  }

  lemma CarefulSurfaceIff(s: Kernel, app: AppId, a: Attempt, t: Clock)
    requires Inv(s) && StartRun(s, app, None).1.RunOpened?
    ensures Careful(s, DoSurfaceAction(app, a, t)) <==> !ClickTaken(s, app, a, t)
  {
    hide Inv, StartRun, Reap, Check, Unused, Inadmissible;
    OwnRunIsEmpty(s, app, a, t);
    UnusedIsShared(Reap(StartRun(s, app, None).0, t.now).0.pending, a.(run := s.nextId));
  }

  // ----- In terms of kernel calls, against a store that commits -----

  lemma WillingSurface(s: Kernel, app: AppId, a: Attempt, t: Clock)
    requires Willing(s) && SurfaceAction(s, app, a, t).1.WorkPrepared?
    ensures Willing(SurfaceAction(s, app, a, t).0)
  {
    hide Write, Prepare;
    SurfaceIsPrepare(s, app, a, t);
    WillingWrite(s.(nextId := s.nextId + 1), [Record(RunStarted(s.nextId, app, None), 0)]);
    WillingPrepare(StartRun(s, app, None).0, a.(run := s.nextId), app == a.slot.cap.provider, t);
  }

  /** A clicked action, prepared where its click is taken for approval. */
  ghost predicate Clicked(s: Kernel, id: InvId, run: RunId) {
    && Steady(s.ledger.records) && Track(s.ledger.records, false).Some?
    && id in s.pending && id in BookOf(s) && !BookOf(s)[id].prompted
    && s.pending[id].run == run && s.pending[id].grant.condition == RequiresApproval && !s.pending[id].authorized
    && id in s.tokens && s.tokens[id] == Prepared(false)
  }

  lemma OpenClicked(s: Kernel, a: Attempt, direct: bool, app: AppId, grant: Grant, t: Clock)
    requires Inv(s) && Replays(s) && !s.recovery && Declares(s.registry, a.slot.cap) && Unused(s.pending, a)
    requires Open(s, a, direct, app, grant, t).1.WorkPrepared? && ConsentInstead(s, a, direct, grant)
    ensures Open(s, a, direct, app, grant, t).1 == WorkPrepared(s.nextInv, false)
    ensures Clicked(Open(s, a, direct, app, grant, t).0, s.nextInv, a.run)
  {
    hide Inv, Steady, Track, Write, Unused;
    var r := Record(OpeningEvent(s, a, direct, grant), s.nextInv);
    NextIsNew(s);
    BothBooks(s);
    StillSteady(s);
    UnusedIsShared(s.pending, a);
    SafeToBeginIff(s, a, grant.id);
    SteadyStep(s.ledger.records, r);
    OpenedBook(s.ledger.records, r);
    StrictIsPermissive(s.ledger.records + [r]);
  }

  lemma SurfaceClicked(s: Kernel, app: AppId, a: Attempt, t: Clock)
    requires Inv(s) && Replays(s) && SurfaceAction(s, app, a, t).1.WorkPrepared? && ClickTaken(s, app, a, t)
    ensures Clicked(SurfaceAction(s, app, a, t).0, SurfaceAction(s, app, a, t).1.id, s.nextId)
  {
    hide Inv, Replays, StartRun, Reap, Check, Unused, Inadmissible, SurfaceAction, Open;
    SurfaceIsPrepare(s, app, a, t);
    var s1, a1, own := StartRun(s, app, None).0, a.(run := s.nextId), app == a.slot.cap.provider;
    StartRunInv(s, app, None);
    StartRunReplays(s, app, None);
    OwnRunIsEmpty(s, app, a, t);
    Answers(s1, a1, own, t);
    var s2 := Reap(s1, t.now).0;
    ReapInv(s1, t.now);
    ReapReplays(s1, t.now);
    AdmissibleDeclares(s2, a1);
    var check := Check(s2.broker, t.wall, s2.ledger.runs[a1.run].app, a1.slot);
    OpenClicked(s2, a1, own, s2.ledger.runs[a1.run].app, check.grant, t);
  }

  lemma AdmissibleDeclares(s: Kernel, a: Attempt)
    requires Inadmissible(s, a).None?
    ensures a.run in s.ledger.runs && Declares(s.registry, a.slot.cap)
  {
  }

  lemma DispatchKept(s: Kernel, id: InvId, t: Clock)
    requires id in s.pending && Willing(s) && Dispatch(s, id, t).1 == Dispatched
    ensures Willing(Dispatch(s, id, t).0) && id in Dispatch(s, id, t).0.pending
    ensures Dispatch(s, id, t).0.pending[id].run == s.pending[id].run
  {
    hide Write, Revalidate;
    WillingWrite(s, [Record(Invoked(s.pending[id].run, s.pending[id].Key()), id)]);
  }

  /** Clicked work that was dispatched: ending its run leaves a store that no restart accepts. */
  lemma ClickedThenEnded(s: Kernel, id: InvId, run: RunId, t: Clock, how: RunEnd)
    requires Inv(s) && Willing(s) && Clicked(s, id, run)
    requires Authorize(AwaitApproval(s, id, true), id, t).1 == Dispatched
    ensures Replay(EndRun(Authorize(AwaitApproval(s, id, true), id, t).0, run, how).0.disk.records).None?
  {
    hide Inv, Steady, Track, Replay, Write, Dispatch, Close, Revalidate;
    var s1 := AwaitApproval(s, id, true);
    var s2 := Authorize(s1, id, t).0;
    OutsideInv(s, id, true, Skipped, 0, 0);
    AuthorizeInv(s1, id, t);
    EntryFacts(s, id);
    DispatchRecords(s1.(tokens := s1.tokens - {id}), id, t);
    DispatchKept(s1.(tokens := s1.tokens - {id}), id, t);
    EntryFacts(s2, id);
    var ids := PendingOfRun(s2, run);
    var ext := Close(s2, ids) + Ends([run], how);
    SecondRecord(s, id);
    ClosingBatch(s2, ids, [run], how);
    ClosingFinishes(s2, ids, [run], how);
    WillingWrite(s2, ext);
    SteadyParts(s.ledger.records);
    StrictIsPermissive(s.ledger.records);
    EndsRun(Close(s2, ids), run, how);
    DoublyBegunCannotRestart(s.ledger.records, id, ext);
  }

  lemma SecondRecord(s: Kernel, id: InvId)
    requires Inv(s) && Track(s.ledger.records, false).Some?
    requires id in s.pending && id in BookOf(s) && !BookOf(s)[id].prompted
    ensures var again := Record(Invoked(s.pending[id].run, s.pending[id].Key()), id);
            Track(s.ledger.records + [again], false) == Some(BookOf(s))
  {
    hide Inv;
    EntryFacts(s, id);
    TrackAppend(s.ledger.records, Record(Invoked(s.pending[id].run, s.pending[id].Key()), id), false);
    assert BookOf(s)[id := BookOf(s)[id]] == BookOf(s);
  }

  /** The calls that carry a surface action to its end: approve, authorize, end its run. */
  function SurfaceCalls(app: AppId, a: Attempt, t: Clock, id: InvId, later: Clock, run: RunId, how: RunEnd): seq<Call>
  {
    [DoSurfaceAction(app, a, t), DoAwaitApproval(id, true), DoAuthorize(id, later), DoEndRun(run, how)]
  }

  lemma FourCalls(s: Kernel, calls: seq<Call>)
    requires |calls| == 4
    ensures Run(s, calls[..2]) == Step(Step(s, calls[0]), calls[1])
    ensures Run(s, calls) == Step(Step(Run(s, calls[..2]), calls[2]), calls[3])
  {
    hide Step;
    assert calls[..3][..2] == calls[..2] && calls[..2][..1] == calls[..1] && calls[..1][..0] == [];
    assert Run(s, calls[..1]) == Step(s, calls[0]);
  }

  lemma RestartableBoots(s: Kernel)
    requires Inv(s) && Restartable(s)
    ensures Bootable(s.disk)
  {
    hide Inv, Replays;
    DiskRestorable(s);
  }

  lemma {:induction false} CarefulCallsBoot(s: Kernel, calls: seq<Call>)
    requires Inv(s) && Restartable(s) && CarefulRun(s, calls)
    ensures Inv(Run(s, calls)) && Restartable(Run(s, calls))
  {
    hide Inv, Restartable, Step, Careful;
    if calls != [] {
      var n := |calls| - 1;
      CarefulCallsBoot(s, calls[..n]);
      StepInv(Run(s, calls[..n]), calls[n]);
      CarefulStep(Run(s, calls[..n]), calls[n]);
    }
  }

  lemma OnlyFirstMatters(s: Kernel, calls: seq<Call>)
    requires |calls| == 4 && Careful(s, calls[0]) && calls[1].DoAwaitApproval? && calls[2].DoAuthorize? && calls[3].DoEndRun?
    ensures CarefulRun(s, calls)
  {
    hide Step, CarefulAttempt;
    assert calls[..3][..2] == calls[..2] && calls[..2][..1] == calls[..1] && calls[..1][..0] == [];
    assert Run(s, []) == s && CarefulRun(s, []);
    assert CarefulRun(s, calls[..1]);
    assert CarefulRun(s, calls[..2]);
    assert CarefulRun(s, calls[..3]);
  }

  /**
    A surface action that is approved where asked, dispatched and followed by the end of
    its run leaves a store that can be restarted from, exactly if its click was not taken
    for a required approval.
   */
  lemma SurfaceRestartIff(s: Kernel, app: AppId, a: Attempt, t: Clock, later: Clock, how: RunEnd)
    requires Inv(s) && Restartable(s) && Willing(s) && SurfaceAction(s, app, a, t).1.WorkPrepared?
    requires var calls := SurfaceCalls(app, a, t, SurfaceAction(s, app, a, t).1.id, later, s.nextId, how);
             Enabled(Run(s, calls[..2]), calls[2]) && Apply(Run(s, calls[..2]), calls[2]).1 == Dispatched
    ensures var calls := SurfaceCalls(app, a, t, SurfaceAction(s, app, a, t).1.id, later, s.nextId, how);
            Bootable(Run(s, calls).disk) <==> !ClickTaken(s, app, a, t)
  {
    hide Inv, Restartable, SurfaceAction, AwaitApproval, Authorize, EndRun, ClickTaken, CarefulAttempt, StartRun, Run,
         CarefulRun, Bootable;
    var calls := SurfaceCalls(app, a, t, SurfaceAction(s, app, a, t).1.id, later, s.nextId, how);
    if ClickTaken(s, app, a, t) {
      CanReplay(s);
      FourCalls(s, calls);
      ClickedRun(s, app, a, t, later, how);
      NotBootable(Run(s, calls).disk);
    } else {
      SurfaceIsPrepare(s, app, a, t);
      CarefulSurfaceIff(s, app, a, t);
      OnlyFirstMatters(s, calls);
      CarefulCallsBoot(s, calls);
      RestartableBoots(Run(s, calls));
    }
  }

  lemma ClickedRun(s: Kernel, app: AppId, a: Attempt, t: Clock, later: Clock, how: RunEnd)
    requires Inv(s) && Replays(s) && Willing(s) && SurfaceAction(s, app, a, t).1.WorkPrepared? && ClickTaken(s, app, a, t)
    requires var calls := SurfaceCalls(app, a, t, SurfaceAction(s, app, a, t).1.id, later, s.nextId, how);
             var s2 := Step(Step(s, calls[0]), calls[1]);
             Enabled(s2, calls[2]) && Apply(s2, calls[2]).1 == Dispatched
    ensures var calls := SurfaceCalls(app, a, t, SurfaceAction(s, app, a, t).1.id, later, s.nextId, how);
            var s2 := Step(Step(s, calls[0]), calls[1]);
            Replay(Step(Step(s2, calls[2]), calls[3]).disk.records).None?
  {
    hide Inv, Replays, SurfaceAction, Authorize, EndRun, ClickTaken, Clicked, Replay;
    var s1, id := SurfaceAction(s, app, a, t).0, SurfaceAction(s, app, a, t).1.id;
    SurfaceClicked(s, app, a, t);
    WillingSurface(s, app, a, t);
    SurfaceActionInv(s, app, a, t);
    IsClicked(s1, id, s.nextId);
    ClickedThenEnded(s1, id, s.nextId, later, how);
  }

  lemma CanReplay(s: Kernel)
    requires Restartable(s) && !s.recovery
    ensures Replays(s) && ManifestPass(s.registry)
  {
    hide Replays, ManifestPass;
  }

  lemma IsClicked(s: Kernel, id: InvId, run: RunId)
    requires Clicked(s, id, run)
    ensures id in s.tokens && s.tokens[id] == Prepared(false)
  {
    hide Steady, Track;
  }

  lemma NotBootable(d: Durable)
    requires Replay(d.records).None? || !ManifestPass(d.registry)
    ensures !Bootable(d)
  {
  }

  // ----- Refused attempts -----

  lemma CancelTakesOne(o: Outstanding, slot: Slot)
    requires CloseSlot(o, slot).Some?
    ensures Load(CloseSlot(o, slot).value) == Load(o) - 1
  {
  }

  /** Each cancellation that is paired up takes one key of its run. */
  lemma {:induction false} CancelsTakeAll(records: seq<Record>, cs: seq<Record>, run: RunId)
    requires forall c | c in cs :: c.event.Cancelled? && c.event.run == run
    requires Replay(records).Some? && Replay(records + cs).Some?
    ensures Load(At(Replay(records + cs).value, run)) == Load(At(Replay(records).value, run)) - |cs|
    decreases |cs|
  {
    hide Replay, Load, At;
    if cs == [] {
      assert records + cs == records;
    } else {
      var n := |cs| - 1;
      assert cs[n] in cs && records + cs == records + cs[..n] + [cs[n]];
      OneCancelled(records + cs[..n], cs[n]);
      CancelsTakeAll(records, cs[..n], run);
    }
  }

  lemma OneCancelled(records: seq<Record>, c: Record)
    requires c.event.Cancelled? && Replay(records + [c]).Some?
    ensures Replay(records).Some?
    ensures Load(At(Replay(records + [c]).value, c.event.run)) == Load(At(Replay(records).value, c.event.run)) - 1
  {
    assert (records + [c])[..|records + [c]| - 1] == records;
    CancelTakesOne(At(Replay(records).value, c.event.run), c.event.slot);
  }

  /** What is pending in the run is what its book has open there. */
  lemma PendingIsOpen(s: Kernel, run: RunId)
    requires Inv(s) && !s.recovery && Track(s.ledger.records, false).Some?
    ensures PendingOfRun(s, run) == OpenIds(BookOf(s), run)
  {
    hide Inv, Track;
    forall id | id in s.pending ensures id in BookOf(s) && IsOpen(BookOf(s), id) && BookOf(s)[id].run == s.pending[id].run {
      EntryFacts(s, id);
    }
    forall id | id in OpenIds(BookOf(s), run) ensures id in s.pending && s.pending[id].run == run {
      OpenFacts(s, id);
      EntryFacts(s, id);
    }
  }

  /** One cancellation for each pending invocation of the run. */
  lemma ClosesRun(s: Kernel, run: RunId)
    requires Inv(s)
    ensures var cs := Close(s, PendingOfRun(s, run));
            |cs| == |PendingOfRun(s, run)| && forall c | c in cs :: c.event.Cancelled? && c.event.run == run
  {
    hide Inv;
    var ids := PendingOfRun(s, run);
    var order := InOrder(ids * s.pending.Keys, s.nextInv);
    forall id | id in ids ensures id in order {
      EntryFacts(s, id);
    }
    DistinctSize(order, ids);
    forall c | c in Close(s, ids) ensures c.event.Cancelled? && c.event.run == run {
      var i :| 0 <= i < |order| && Close(s, ids)[i] == c;
      assert order[i] in order;
    }
  }

  lemma {:induction false} DistinctSize(order: seq<nat>, ids: set<nat>)
    requires Distinct(order) && forall x :: x in order <==> x in ids
    ensures |order| == |ids|
    decreases |order|
  {
    if order == [] {
      assert ids == {};
    } else {
      var n := |order| - 1;
      assert order[n] in order && order[n] in ids;
      assert forall x :: x in order[..n] <==> x in ids - {order[n]} by {
        forall x ensures x in order[..n] <==> x in ids - {order[n]} {
          assert x in order <==> x in order[..n] || x == order[n];
        }
      }
      DistinctSize(order[..n], ids - {order[n]});
    }
  }

  /**
    A lone refusal beside open work of its slot: from then on the replay lists one key
    less than there is open work, and cancelling all of it runs dry.
   */
  lemma RefusalRunsDry(s: Kernel, a: Attempt, reason: DenialReason)
    requires Inv(s) && Replays(s) && !s.recovery && !Unused(s.pending, a)
    ensures Replay(s.ledger.records + [Record(Refused(a.run, a.slot, reason), 0)] + Close(s, PendingOfRun(s, a.run))).None?
  {
    hide Inv, Track, Replay, Close, Unused, Load;
    var records, r, cs := s.ledger.records, Record(Refused(a.run, a.slot, reason), 0), Close(s, PendingOfRun(s, a.run));
    NextIsNew(s);
    BothBooks(s);
    StillSteady(s);
    SlotFreeIff(s, a);
    ClosesRun(s, a.run);
    PendingIsOpen(s, a.run);
    SteadyAgrees(records);
    AgreeLoad(Replay(records).value, BookOf(s), a.run);
    RefusalTakesOne(records, r);
    if Replay(records + [r] + cs).Some? {
      CancelsTakeAll(records + [r], cs, a.run);
    }
  }

  lemma SteadyAgrees(records: seq<Record>)
    requires Steady(records)
    ensures Replay(records).Some? && Track(records, true).Some?
    ensures Agree(Replay(records).value, Track(records, true).value) && SlotsSafe(Track(records, true).value)
  {
  }

  lemma RefusalTakesOne(records: seq<Record>, r: Record)
    requires Steady(records) && r.event.Refused? && Track(records, true).Some?
    requires !SlotFree(Track(records, true).value, r.event.run, r.event.slot)
    ensures Replay(records).Some? && Replay(records + [r]).Some?
    ensures Load(At(Replay(records + [r]).value, r.event.run)) == Load(At(Replay(records).value, r.event.run)) - 1
  {
    hide Track, SlotsSafe, Load;
    SteadyAgrees(records);
    var b, m := Track(records, true).value, Replay(records).value;
    var x :| x in b && IsOpen(b, x) && b[x].run == r.event.run && b[x].key.slot == r.event.slot;
    ClosesOwnKey(m, b, x);
    CancelTakesOne(At(m, r.event.run), r.event.slot);
    ReplayAppend(records, r);
  }

  lemma RefusedBy(s: Kernel, a: Attempt, t: Clock)
    requires Prepare(s, a, false, t).1.Refusal?
    ensures var s1 := Reap(s, t.now).0;
            && a.run in s1.ledger.runs && Active(s1.ledger.runs, a.run) && Inadmissible(s1, a).None?
            && var check := Check(s1.broker, t.wall, s1.ledger.runs[a.run].app, a.slot);
               check.Denied? && Write(s1, [Record(Refused(a.run, a.slot, check.reason), 0)]).1
               && Prepare(s, a, false, t).0 == Write(s1, [Record(Refused(a.run, a.slot, check.reason), 0)]).0
  {
    hide Write, Check, Open, Reap;
    var s1 := Reap(s, t.now).0;
    AdmissibleOrNot(s, a, t);
    var check := Check(s1.broker, t.wall, s1.ledger.runs[a.run].app, a.slot);
    if !check.Denied? {
      OpenAnswers(s1, a, false, s1.ledger.runs[a.run].app, check.grant, t);
    }
  }

  lemma AdmissibleOrNot(s: Kernel, a: Attempt, t: Clock)
    requires Prepare(s, a, false, t).1.Refusal?
    ensures Inadmissible(Reap(s, t.now).0, a).None? && Active(Reap(s, t.now).0.ledger.runs, a.run)
    ensures Declares(Reap(s, t.now).0.registry, a.slot.cap)
  {
    hide Write, Check, Reap;
  }

  lemma RefusedThenEnded(s: Kernel, a: Attempt, reason: DenialReason, how: RunEnd)
    requires Inv(s) && Replays(s) && Willing(s) && !Unused(s.pending, a)
    requires Write(s, [Record(Refused(a.run, a.slot, reason), 0)]).1
    requires Inv(Write(s, [Record(Refused(a.run, a.slot, reason), 0)]).0) && Active(s.ledger.runs, a.run)
    ensures Replay(EndRun(Write(s, [Record(Refused(a.run, a.slot, reason), 0)]).0, a.run, how).0.disk.records).None?
  {
    hide Inv, Replays, Write, Replay, Close, Unused;
    var r := Record(Refused(a.run, a.slot, reason), 0);
    var s1 := Write(s, [r]).0;
    var ids := PendingOfRun(s, a.run);
    WriteKeepsRuns(s, r);
    WillingWrite(s, [r]);
    ClosingBatch(s1, ids, [a.run], how);
    WillingWrite(s1, Close(s1, ids) + Ends([a.run], how));
    RefusalRunsDry(s, a, reason);
    SameClosing(s, s1, ids);
    var all := s.ledger.records + [r] + (Close(s, ids) + Ends([a.run], how));
    var part := s.ledger.records + [r] + Close(s, ids);
    assert all[..|part|] == part;
    ReplayPrefix(all, |part|);
  }

  lemma SameClosing(s: Kernel, s1: Kernel, ids: set<InvId>)
    requires s1.pending == s.pending && s1.nextInv == s.nextInv
    ensures Close(s1, ids) == Close(s, ids)
  {
  }

  /**
    A refused attempt, followed by the end of its run, leaves a store that can be
    restarted from exactly if no pending work of the run had its capability and data.
   */
  lemma RefusalRestartIff(s: Kernel, a: Attempt, t: Clock, how: RunEnd)
    requires Inv(s) && Restartable(s) && Willing(s) && Prepare(s, a, false, t).1.Refusal?
    ensures Bootable(EndRun(Prepare(s, a, false, t).0, a.run, how).0.disk) <==> Unused(Reap(s, t.now).0.pending, a)
  {
    hide Inv, Restartable, Prepare, EndRun, Reap, Unused, Bootable, Check, Write;
    CanReplay(s);
    PrepareInv(s, a, false, t);
    RefusedBy(s, a, t);
    if Unused(Reap(s, t.now).0.pending, a) {
      var c, e := DoPrepare(a, t), DoEndRun(a.run, how);
      CarefulStep(s, c);
      StepInv(Step(s, c), e);
      CarefulStep(Step(s, c), e);
      RestartableBoots(Step(Step(s, c), e));
    } else {
      ReapInv(s, t.now);
      ReapReplays(s, t.now);
      WillingPrepare(s, a, false, t);
      var s1 := Reap(s, t.now).0;
      RefusedThenEnded(s1, a, Check(s1.broker, t.wall, s1.ledger.runs[a.run].app, a.slot).reason, how);
      NotBootable(EndRun(Prepare(s, a, false, t).0, a.run, how).0.disk);
    }
  }

  // ----- Installing -----

  lemma InstalledRegistry(s: Kernel, p: Plan, eventsApproved: bool, decisions: seq<bool>, t: Clock)
    requires !CommitInstall(s, p, eventsApproved, decisions, t).1.Failure? && s.disk == Projection(s)
    ensures CommitInstall(s, p, eventsApproved, decisions, t).0.disk.registry == s.registry[p.manifest.app := p.manifest]
    ensures RequestsOk(s.registry, p.manifest, p.mode.Rebind?)
  {
    hide Reconcile, StagedBroker, StagedClose, AppendAll, RequestsOk, HashesCurrent, ClosedWork;
    if p.mode.Rebind? {
      assert s.registry[p.manifest.app := p.manifest] == s.registry;
    }
  }

  /** An install leaves a store that can be restarted from exactly if it covers its dependents. */
  lemma InstallRestartIff(s: Kernel, p: Plan, eventsApproved: bool, decisions: seq<bool>, t: Clock)
    requires Inv(s) && Restartable(s) && !s.recovery && PlanOk(p)
    requires !CommitInstall(s, p, eventsApproved, decisions, t).1.Failure?
    ensures Bootable(CommitInstall(s, p, eventsApproved, decisions, t).0.disk) <==> CoversDependents(s.registry, p.manifest)
  {
    hide Inv, Restartable, CommitInstall, RequestsOk, ManifestPass, CoversDependents, PlanOk, Bootable;
    CanReplay(s);
    StoreIsMemory(s);
    RegistryOk(s);
    InstalledRegistry(s, p, eventsApproved, decisions, t);
    if !p.mode.Rebind? {
      StricterRequests(s.registry, p.manifest);
    }
    InstallPassesIff(s.registry, p.manifest);
    if CoversDependents(s.registry, p.manifest) {
      var c := DoInstall(p, eventsApproved, decisions, t);
      CarefulStep(s, c);
      StepInv(s, c);
      RestartableBoots(Step(s, c));
    } else {
      NotBootable(CommitInstall(s, p, eventsApproved, decisions, t).0.disk);
    }
  }

  lemma StoreIsMemory(s: Kernel)
    requires Inv(s) && !s.recovery
    ensures s.disk == Projection(s)
  {
    hide MemoryOk;
  }
}
