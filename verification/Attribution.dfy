/**
  Every record has its warrant: which call may write which record, about which
  invocation or run, and in what state of it. Record by record, this leaves no room
  for a record the caller's decisions do not account for.
 */
module Attribution {
  import opened Basics
  import opened Domain
  import opened Ledger
  import opened Broker
  import opened KernelState
  import opened ActionPath
  import opened Lifecycle
  import opened KernelInvariant
  import opened ActionInvariant
  import opened LifecycleInvariant
  import opened Runs
  import opened HeldWork

  /** The call attempts this work; a surface action does so in a run of its own. */
  predicate Attempts(s: Kernel, c: Call, run: RunId, slot: Slot) {
    || (c.DoPrepare? && run == c.attempt.run && slot == c.attempt.slot)
    || (c.DoSurfaceAction? && run == s.nextId && slot == c.attempt.slot)
  }

  /** The broker's answer to the attempt, for the app of the run or of the surface. */
  function Answer(s: Kernel, c: Call, run: RunId, slot: Slot): Option<GrantCheck>
    requires Attempts(s, c, run, slot)
  {
    if c.DoSurfaceAction? then Some(Check(s.broker, c.t.wall, c.app, slot))
    else if run in s.ledger.runs then Some(Check(s.broker, c.t.wall, s.ledger.runs[run].app, slot))
    else None
  }

  /** The attempt got this grant. */
  predicate Obtains(s: Kernel, c: Call, run: RunId, key: Key) {
    && Attempts(s, c, run, key.slot)
    && var answer := Answer(s, c, run, key.slot);
    && answer.Some? && !answer.value.Denied? && answer.value.grant.id == key.grant
  }

  /** A click in the provider's own surface, for something that only reads or writes locally. */
  predicate OwnBoundedClick(s: Kernel, c: Call) {
    && c.DoSurfaceAction? && c.app == c.attempt.slot.cap.provider && c.app in s.registry
    && var caps := s.registry[c.app].caps;
    && c.attempt.slot.cap.name in caps && caps[c.attempt.slot.cap.name] in {ReadOnly, LocalWrite}
  }

  predicate AsksFirst(s: Kernel, c: Call, run: RunId, key: Key)
    requires Obtains(s, c, run, key)
  {
    Answer(s, c, run, key.slot).value.grant.condition == RequiresApproval && !OwnBoundedClick(s, c)
  }

  /** The call uses this invocation's token, and the kernel still holds the work as named. */
  predicate Uses(s: Kernel, c: Call, id: InvId, run: RunId, slot: Slot) {
    && (c.DoAuthorize? || c.DoFinalize? || c.DoAbort?) && c.id == id && Enabled(s, c)
    && id in s.pending && s.pending[id].run == run && s.pending[id].slot == slot
  }

  predicate UsesKey(s: Kernel, c: Call, id: InvId, run: RunId, key: Key) {
    Uses(s, c, id, run, key.slot) && s.pending[id].grant.id == key.grant
  }

  /** The app whose work and runs the call closes. */
  predicate Displaces(c: Call, app: AppId) {
    (c.DoUninstall? && c.app == app) || (c.DoInstall? && c.plan.mode.Replace? && c.plan.manifest.app == app)
  }

  /** Pending work goes with its run or its apps, or because it is cancelled or late when someone prepares. */
  predicate Sweeps(s: Kernel, c: Call, id: InvId) {
    && id in s.pending
    && var p := s.pending[id];
    || (c.DoEndRun? && c.run == p.run)
    || Displaces(c, p.app) || Displaces(c, p.slot.cap.provider)
    || ((c.DoPrepare? || c.DoSurfaceAction?) && (id in s.flags || p.deadline <= c.t.now))
  }

  /** What a valid result is: it passed its check, and so did every draft, of a type the provider declares. */
  predicate GoodResult(p: Pending, x: Execution) {
    x.Returned? && x.resultOk && forall d | d in x.drafts :: d.contentOk && d.kind in p.hash.types
  }

  predicate Warranted(s: Kernel, c: Call, r: Record) {
    var id := r.inv;
    match r.event
    case RunStarted(run, app, parent) =>
      && id == 0 && run == s.nextId
      && (c == DoStartRun(app, parent) || (c.DoSurfaceAction? && c.app == app && parent == None))
    case RunEnded(run, how) =>
      && id == 0
      && (|| c == DoEndRun(run, how)
          || (c.DoSurfaceAction? && run == s.nextId && how == RunFailed)
          || (run in s.ledger.runs && Displaces(c, s.ledger.runs[run].app) && how == RunCancelled))
    case ApprovalRequested(run, key) => id == s.nextInv && Obtains(s, c, run, key) && AsksFirst(s, c, run, key)
    case ApprovalGranted(run, key) =>
      c.DoAuthorize? && UsesKey(s, c, id, run, key) && s.tokens[id] == Answered(Some(true))
    case ApprovalDenied(run, key) =>
      c.DoAuthorize? && UsesKey(s, c, id, run, key) && s.tokens[id] == Answered(Some(false))
    case Invoked(run, key) =>
      || (id == s.nextInv && Obtains(s, c, run, key) && !AsksFirst(s, c, run, key))
      || (c.DoAuthorize? && UsesKey(s, c, id, run, key) && s.tokens[id] != Answered(Some(false))
          && s.pending[id].grant.condition == RequiresApproval)
    case Completed(run, key) =>
      c.DoFinalize? && UsesKey(s, c, id, run, key) && GoodResult(s.pending[id], s.tokens[id].execution)
    case Failed(run, key) =>
      && c.DoFinalize? && UsesKey(s, c, id, run, key)
      && !s.tokens[id].execution.Skipped? && !GoodResult(s.pending[id], s.tokens[id].execution)
    case Refused(run, slot, reason) =>
      || (id == 0 && Attempts(s, c, run, slot) && Answer(s, c, run, slot) == Some(Denied(reason)))
      || (!c.DoAbort? && Uses(s, c, id, run, slot) && Check(s.broker, c.t.wall, s.pending[id].app, slot) == Denied(reason))
    case Cancelled(run, slot) =>
      || Uses(s, c, id, run, slot)
      || (Sweeps(s, c, id) && run == s.pending[id].run && slot == s.pending[id].slot)
    case Produced(run, artifact, kind) =>
      && c.DoFinalize? && id in s.pending && Uses(s, c, id, run, s.pending[id].slot)
      && GoodResult(s.pending[id], s.tokens[id].execution)
      && s.nextId <= artifact < s.nextId + |s.tokens[id].execution.drafts|
      && kind == s.tokens[id].execution.drafts[artifact - s.nextId].kind
  }

  // ----- Writing warranted records -----

  /** The ledger grew by warranted records only. */
  predicate Accounted(s: Kernel, c: Call, before: seq<Record>, after: seq<Record>) {
    before <= after && forall k | |before| <= k < |after| :: Warranted(s, c, after[k])
  }

  lemma AccountedTrans(s: Kernel, c: Call, r0: seq<Record>, r1: seq<Record>, r2: seq<Record>)
    requires Accounted(s, c, r0, r1) && Accounted(s, c, r1, r2)
    ensures Accounted(s, c, r0, r2)
  {
    hide Warranted;
    assert forall k | |r0| <= k < |r1| :: r2[k] == r1[k];
  }

  lemma WriteAccounted(s: Kernel, c: Call, x: Kernel, rs: seq<Record>)
    requires forall r | r in rs :: Warranted(s, c, r)
    ensures Accounted(s, c, x.ledger.records, Write(x, rs).0.ledger.records)
  {
    hide Warranted, Write;
    var records := Write(x, rs).0.ledger.records;
    forall k | |x.ledger.records| <= k < |records| ensures Warranted(s, c, records[k]) {
      assert records[k] == rs[k - |x.ledger.records|];
    }
  }

  lemma NoneAccounted(s: Kernel, c: Call, records: seq<Record>)
    ensures Accounted(s, c, records, records)
  {
  }

  /** Closing pending work and ending runs. */
  lemma CloseAccounted(s: Kernel, c: Call, x: Kernel, ids: set<InvId>, runs: seq<RunId>, how: RunEnd)
    requires x.pending == s.pending
    requires forall id | id in ids && id in s.pending :: Sweeps(s, c, id)
    requires forall run | run in runs :: Warranted(s, c, Record(RunEnded(run, how), 0))
    ensures forall r | r in Close(x, ids) + Ends(runs, how) :: Warranted(s, c, r)
  {
    hide Sweeps;
    var rs := Close(x, ids) + Ends(runs, how);
    forall r | r in rs ensures Warranted(s, c, r) {
      var k :| 0 <= k < |rs| && rs[k] == r;
      if k < |Close(x, ids)| {
        var order := InOrder(ids * x.pending.Keys, x.nextInv);
        assert order[k] in order;
      } else {
        assert r == Record(RunEnded(runs[k - |Close(x, ids)|], how), 0);
      }
    }
  }

  // ----- The operations -----

  lemma StartAccounted(s: Kernel, c: Call, app: AppId, parent: Option<RunId>)
    requires c == DoStartRun(app, parent) || (c.DoSurfaceAction? && c.app == app && parent == None)
    ensures Accounted(s, c, s.ledger.records, StartRun(s, app, parent).0.ledger.records)
  {
    hide Write, Accounted;
    NoneAccounted(s, c, s.ledger.records);
    WriteAccounted(s, c, s.(nextId := s.nextId + 1), [Record(RunStarted(s.nextId, app, parent), 0)]);
  }

  lemma EndAccounted(s: Kernel, c: Call, x: Kernel, run: RunId, how: RunEnd)
    requires || (c == DoEndRun(run, how) && x == s)
             || (c.DoSurfaceAction? && run == s.nextId && how == RunFailed && PendingOfRun(x, run) == {})
    ensures Accounted(s, c, x.ledger.records, EndRun(x, run, how).0.ledger.records)
  {
    hide Write, Accounted, Close;
    var ids := PendingOfRun(x, run);
    NoneAccounted(s, c, x.ledger.records);
    if ids == {} {
      NothingToClose(x);
    } else {
      CloseAccounted(s, c, x, ids, [run], how);
    }
    WriteAccounted(s, c, x, Close(x, ids) + Ends([run], how));
  }

  lemma NothingToClose(s: Kernel)
    ensures Close(s, {}) == []
  {
    assert {} * s.pending.Keys == {};
    NothingInOrder(s.nextInv);
  }

  /** The state a preparation starts from: the caller's, or the one with the surface's own run added. */
  predicate Entered(s: Kernel, c: Call, x: Kernel, a: Attempt, direct: bool, t: Clock) {
    && x.pending == s.pending && x.flags == s.flags && x.nextInv == s.nextInv
    && x.broker == s.broker && x.registry == s.registry
    && match c
       case DoPrepare(a', t') => a == a' && t == t' && !direct && x == s
       case DoSurfaceAction(app, a', t') =>
         && a == a'.(run := s.nextId) && t == t' && direct == (app == a'.slot.cap.provider)
         && (a.run in x.ledger.runs ==> x.ledger.runs[a.run].app == app)
       case _ => false
  }

  lemma ReapAccounted(s: Kernel, c: Call, x: Kernel, a: Attempt, direct: bool, t: Clock)
    requires Entered(s, c, x, a, direct, t)
    ensures Accounted(s, c, x.ledger.records, Reap(x, t.now).0.ledger.records)
  {
    hide Write, Accounted, Close;
    var ids := PendingDue(x, t.now);
    NoneAccounted(s, c, x.ledger.records);
    CloseAccounted(s, c, x, ids, [], RunFailed);
    assert Close(x, ids) + Ends([], RunFailed) == Close(x, ids);
    WriteAccounted(s, c, x, Close(x, ids));
  }

  lemma OpenAccounted(s: Kernel, c: Call, x: Kernel, a: Attempt, direct: bool, app: AppId, grant: Grant, t: Clock)
    requires Declares(x.registry, a.slot.cap) && x.registry == s.registry && x.nextInv == s.nextInv
    requires Obtains(s, c, a.run, Key(a.slot, grant.id)) && Answer(s, c, a.run, a.slot).value.grant == grant
    requires direct <==> c.DoSurfaceAction? && c.app == a.slot.cap.provider
    ensures Accounted(s, c, x.ledger.records, Open(x, a, direct, app, grant, t).0.ledger.records)
  {
    hide Write, Accounted, Check;
    var key := Key(a.slot, grant.id);
    var e := if NeedsPrompt(x, a, direct, grant) then ApprovalRequested(a.run, key) else Invoked(a.run, key);
    NoneAccounted(s, c, x.ledger.records);
    assert NeedsPrompt(x, a, direct, grant) <==> AsksFirst(s, c, a.run, key);
    WriteAccounted(s, c, x, [Record(e, s.nextInv)]);
  }

  lemma PrepareAccounted(s: Kernel, c: Call, x: Kernel, a: Attempt, direct: bool, t: Clock)
    requires Inv(x) && Entered(s, c, x, a, direct, t)
    ensures Accounted(s, c, x.ledger.records, Prepare(x, a, direct, t).0.ledger.records)
  {
    hide Inv, Write, Accounted, Check, Reap, Open;
    ReapAccounted(s, c, x, a, direct, t);
    ReapKeepsRuns(x, t.now);
    ReapFewer(x, t.now);
    ReapKeepsApps(x, t.now);
    var (x1, ok) := Reap(x, t.now);
    if ok && Inadmissible(x1, a).None? {
      var app := x1.ledger.runs[a.run].app;
      var check := Check(x1.broker, t.wall, app, a.slot);
      assert Answer(s, c, a.run, a.slot) == Some(check);
      if check.Denied? {
        WriteAccounted(s, c, x1, [Record(Refused(a.run, a.slot, check.reason), 0)]);
      } else {
        OpenAccounted(s, c, x1, a, direct, app, check.grant, t);
      }
      AccountedTrans(s, c, x.ledger.records, x1.ledger.records, Prepare(x, a, direct, t).0.ledger.records);
    }
  }

  lemma ReapKeepsApps(s: Kernel, now: Time)
    ensures Reap(s, now).0.registry == s.registry && Reap(s, now).0.broker == s.broker
  {
    hide Write, Close;
  }

  lemma FailedPrepareOpensNothing(s: Kernel, a: Attempt, direct: bool, t: Clock)
    ensures var (s', r) := Prepare(s, a, direct, t);
            r.Failure? ==> forall id | id in s'.pending :: id in s.pending && s'.pending[id] == s.pending[id]
  {
    hide Write, Check, Reap;
    ReapFewer(s, t.now);
  }

  /** A run that is only just started has no pending work. */
  lemma NewRunIsIdle(s: Kernel, x: Kernel)
    requires Inv(s) && forall id | id in x.pending :: id in s.pending && x.pending[id] == s.pending[id]
    ensures PendingOfRun(x, s.nextId) == {}
  {
    hide HandlersOk, BookOk, DiskOk;
    forall id | id in x.pending ensures x.pending[id].run != s.nextId {
      EntryFacts(s, id);
    }
  }

  lemma SurfaceEnters(s: Kernel, app: AppId, a: Attempt, t: Clock)
    requires Inv(s) && StartRun(s, app, None).1.RunOpened?
    ensures var (x, r) := StartRun(s, app, None);
            && r.run == s.nextId
            && Entered(s, DoSurfaceAction(app, a, t), x, a.(run := r.run), app == a.slot.cap.provider, t)
  {
    hide Inv;
    var r := Record(RunStarted(s.nextId, app, None), 0);
    assert [r][1..] == [] && AppendAll(Append(s.ledger, r), []) == Some(Append(s.ledger, r));
  }

  lemma SurfaceAccounted(s: Kernel, app: AppId, a: Attempt, t: Clock)
    requires Inv(s)
    ensures Accounted(s, DoSurfaceAction(app, a, t), s.ledger.records, SurfaceAction(s, app, a, t).0.ledger.records)
  {
    hide Inv, StartRun, Prepare, EndRun, Accounted, Entered;
    var c := DoSurfaceAction(app, a, t);
    StartAccounted(s, c, app, None);
    var (s1, r) := StartRun(s, app, None);
    if r.RunOpened? {
      var own := app == a.slot.cap.provider;
      SurfaceEnters(s, app, a, t);
      StartRunInv(s, app, None);
      PrepareAccounted(s, c, s1, a.(run := r.run), own, t);
      var (s2, r2) := Prepare(s1, a.(run := r.run), own, t);
      AccountedTrans(s, c, s.ledger.records, s1.ledger.records, s2.ledger.records);
      if r2.Failure? {
        FailedPrepareOpensNothing(s1, a.(run := r.run), own, t);
        StartFewer(s, app, None);
        NewRunIsIdle(s, s2);
        EndAccounted(s, c, s2, r.run, RunFailed);
        AccountedTrans(s, c, s.ledger.records, s2.ledger.records, EndRun(s2, r.run, RunFailed).0.ledger.records);
      }
    }
  }

  /** The work is still as the caller's token found it; records may have been added. */
  predicate InHand(s: Kernel, c: Call, x: Kernel, id: InvId) {
    && (c.DoAuthorize? || c.DoFinalize?) && c.id == id && Enabled(s, c)
    && id in s.pending && x.pending == s.pending && x.broker == s.broker && x.registry == s.registry
  }

  lemma StaleAccounted(s: Kernel, c: Call, x: Kernel, id: InvId, v: Verdict)
    requires InHand(s, c, x, id)
    requires v.NotGranted? ==> Check(s.broker, c.t.wall, s.pending[id].app, s.pending[id].slot) == Denied(v.reason)
    ensures Accounted(s, c, x.ledger.records, CloseStale(x, id, v).0.ledger.records)
  {
    hide Write, Accounted, Check;
    var p := x.pending[id];
    var e := if v.NotGranted? then Refused(p.run, p.slot, v.reason) else Cancelled(p.run, p.slot);
    NoneAccounted(s, c, x.ledger.records);
    assert Warranted(s, c, Record(e, id));
    WriteAccounted(s, c, x, [Record(e, id)]);
    WriteAccounted(s, c, x.(flags := x.flags + {id}), [Record(e, id)]);
  }

  lemma RevalidateReason(x: Kernel, id: InvId, t: Clock)
    requires id in x.pending
    ensures var v := Revalidate(x, id, t);
            v.NotGranted? ==> Check(x.broker, t.wall, x.pending[id].app, x.pending[id].slot) == Denied(v.reason)
  {
    hide Check;
  }

  lemma DispatchAccounted(s: Kernel, c: Call, x: Kernel, id: InvId)
    requires InHand(s, c, x, id) && c.DoAuthorize? && s.tokens[id] != Answered(Some(false))
    ensures Accounted(s, c, x.ledger.records, Dispatch(x, id, c.t).0.ledger.records)
  {
    hide Write, Accounted, Revalidate, CloseStale, Check;
    var p, v := x.pending[id], Revalidate(x, id, c.t);
    NoneAccounted(s, c, x.ledger.records);
    if !v.Live? {
      RevalidateReason(x, id, c.t);
      StaleAccounted(s, c, x, id, v);
    } else if p.grant.condition == RequiresApproval {
      var r := Record(Invoked(p.run, p.Key()), id);
      assert Warranted(s, c, r);
      WriteAccounted(s, c, x, [r]);
    }
  }

  lemma AuthorizeAccounted(s: Kernel, id: InvId, t: Clock)
    requires id in s.tokens && s.tokens[id].Answered?
    ensures Accounted(s, DoAuthorize(id, t), s.ledger.records, Authorize(s, id, t).0.ledger.records)
  {
    hide Write, Accounted, Dispatch, Check;
    var c, s0, decision := DoAuthorize(id, t), s.(tokens := s.tokens - {id}), s.tokens[id].decision;
    NoneAccounted(s, c, s.ledger.records);
    if id in s.pending && !s.pending[id].authorized {
      if decision.None? {
        DispatchAccounted(s, c, s0, id);
      } else {
        var p := s.pending[id];
        var e := if decision.value then ApprovalGranted(p.run, p.Key()) else ApprovalDenied(p.run, p.Key());
        var (s1, ok) := Write(s0, [Record(e, id)]);
        assert Warranted(s, c, Record(e, id));
        WriteAccounted(s, c, s0, [Record(e, id)]);
        if ok && decision.value {
          DispatchAccounted(s, c, s1, id);
          AccountedTrans(s, c, s.ledger.records, s1.ledger.records, Dispatch(s1, id, t).0.ledger.records);
        }
      }
    }
  }

  lemma CompleteAccounted(s: Kernel, c: Call, x: Kernel, id: InvId)
    requires InHand(s, c, x, id) && c.DoFinalize? && x.nextId == s.nextId
    requires GoodResult(s.pending[id], s.tokens[id].execution)
    ensures Accounted(s, c, x.ledger.records, Complete(x, id, s.tokens[id].execution.drafts).0.ledger.records)
  {
    hide CommitCompletion, StampedArtifacts, Accounted;
    var drafts, p := s.tokens[id].execution.drafts, x.pending[id];
    var rs := ProductionRecords(x, id, drafts) + [Record(Completed(p.run, p.Key()), id)];
    var records := Complete(x, id, drafts).0.ledger.records;
    NoneAccounted(s, c, x.ledger.records);
    forall r | r in rs ensures Warranted(s, c, r) {
    }
    if records == x.ledger.records + rs {
      AppendAccounted(s, c, x.ledger.records, rs);
    }
  }

  lemma AppendAccounted(s: Kernel, c: Call, records: seq<Record>, rs: seq<Record>)
    requires forall r | r in rs :: Warranted(s, c, r)
    ensures Accounted(s, c, records, records + rs)
  {
    hide Warranted;
    forall k | |records| <= k < |records + rs| ensures Warranted(s, c, (records + rs)[k]) {
      assert (records + rs)[k] == rs[k - |records|];
    }
  }

  lemma FailAccounted(s: Kernel, c: Call, x: Kernel, id: InvId)
    requires InHand(s, c, x, id) && c.DoFinalize?
    requires !s.tokens[id].execution.Skipped? && !GoodResult(s.pending[id], s.tokens[id].execution)
    ensures Accounted(s, c, x.ledger.records, Fail(x, id).0.ledger.records)
  {
    hide Write, Accounted;
    var r := Record(Failed(x.pending[id].run, x.pending[id].Key()), id);
    assert Warranted(s, c, r);
    WriteAccounted(s, c, x, [r]);
  }

  /** While the provider's content is that of preparation, the drafts are judged by it. */
  lemma JudgedByReservation(x: Kernel, id: InvId, t: Clock, drafts: seq<Draft>)
    requires id in x.pending && Revalidate(x, id, t).Live?
    ensures DraftsOk(x, x.pending[id].slot.cap.provider, drafts)
            <==> forall d | d in drafts :: d.contentOk && d.kind in x.pending[id].hash.types
  {
    hide Check;
  }

  lemma FinalizeAccounted(s: Kernel, id: InvId, t: Clock)
    requires id in s.tokens && s.tokens[id].Executed?
    ensures Accounted(s, DoFinalize(id, t), s.ledger.records, Finalize(s, id, t).0.ledger.records)
  {
    hide Accounted, Revalidate, CloseStale, Complete, Fail, DraftsOk, Check, Warranted;
    var c, s0, x := DoFinalize(id, t), s.(tokens := s.tokens - {id}), s.tokens[id].execution;
    NoneAccounted(s, c, s.ledger.records);
    if id in s.pending && s.pending[id].authorized {
      var v := Revalidate(s0, id, t);
      if !v.Live? {
        RevalidateReason(s0, id, t);
        StaleAccounted(s, c, s0, id, v);
      } else if x.Skipped? {
        StaleAccounted(s, c, s0, id, Stopped);
      } else {
        JudgedByReservation(s0, id, t, if x.Returned? then x.drafts else []);
        if GoodResult(s.pending[id], x) {
          CompleteAccounted(s, c, s0, id);
        } else {
          FailAccounted(s, c, s0, id);
        }
      }
    }
  }

  lemma AbortAccounted(s: Kernel, id: InvId)
    requires id in s.tokens && (s.tokens[id].Prepared? || s.tokens[id].Authorized?)
    ensures Accounted(s, DoAbort(id), s.ledger.records, Abort(s, id).0.ledger.records)
  {
    hide Write, Accounted;
    NoneAccounted(s, DoAbort(id), s.ledger.records);
    if id in s.pending {
      var r := Record(Cancelled(s.pending[id].run, s.pending[id].slot), id);
      assert Warranted(s, DoAbort(id), r);
      WriteAccounted(s, DoAbort(id), s, [r]);
    }
  }

  /** Closing an app's work and ending its runs. */
  lemma DisplacedAccounted(s: Kernel, c: Call, app: AppId)
    requires Displaces(c, app)
    ensures forall r | r in Close(s, PendingOfApp(s, app))
                            + Ends(InOrder(ActiveRuns(s.ledger.runs, app), s.nextId), RunCancelled) :: Warranted(s, c, r)
  {
    CloseAccounted(s, c, s, PendingOfApp(s, app), InOrder(ActiveRuns(s.ledger.runs, app), s.nextId), RunCancelled);
  }

  lemma AdoptStagedRecords(s: Kernel, p: Plan, r: Reconciled)
    ensures var records := AdoptStaged(s, p, r).0.ledger.records;
            records == s.ledger.records || records == s.ledger.records + StagedClose(s, p)
  {
    hide Offer, StagedClose, ClosedWork;
  }

  lemma InstallAccounted(s: Kernel, p: Plan, eventsApproved: bool, decisions: seq<bool>, t: Clock)
    ensures Accounted(s, DoInstall(p, eventsApproved, decisions, t), s.ledger.records,
                      CommitInstall(s, p, eventsApproved, decisions, t).0.ledger.records)
  {
    hide AdoptStaged, Reconcile, StagedBroker, RequestsOk, HashesCurrent, Accounted, Warranted, Close, Ends, InOrder, ActiveRuns,
         PendingOfApp;
    var c := DoInstall(p, eventsApproved, decisions, t);
    var q := Round(p.manifest.app, p.origin, p.prompts, decisions, t.wall);
    AdoptStagedRecords(s, p, Reconcile(StagedBroker(s, p), Authorities(p.manifest.requests), q, s.nextId));
    NoneAccounted(s, c, s.ledger.records);
    if p.mode.Replace? {
      DisplacedAccounted(s, c, p.manifest.app);
    }
    AppendAccounted(s, c, s.ledger.records, StagedClose(s, p));
  }

  lemma UninstallRecords(s: Kernel, app: AppId)
    ensures var records := Uninstall(s, app).0.ledger.records;
            || records == s.ledger.records
            || records == s.ledger.records + (Close(s, PendingOfApp(s, app))
                                              + Ends(InOrder(ActiveRuns(s.ledger.runs, app), s.nextId), RunCancelled))
  {
    hide Offer, Close, Ends, InOrder, ActiveRuns, PendingOfApp, RevokeApp;
  }

  lemma UninstallAccounted(s: Kernel, app: AppId)
    ensures Accounted(s, DoUninstall(app), s.ledger.records, Uninstall(s, app).0.ledger.records)
  {
    hide Uninstall, Accounted, Warranted, Close, Ends, InOrder, ActiveRuns, PendingOfApp;
    var c := DoUninstall(app);
    UninstallRecords(s, app);
    NoneAccounted(s, c, s.ledger.records);
    DisplacedAccounted(s, c, app);
    AppendAccounted(s, c, s.ledger.records,
                    Close(s, PendingOfApp(s, app)) + Ends(InOrder(ActiveRuns(s.ledger.runs, app), s.nextId), RunCancelled));
  }

  lemma SilentLifecycle(s: Kernel, c: Call)
    requires c.DoGrant? || c.DoRevoke? || c.DoRevokeResource? || c.DoUpgrade?
    ensures Step(s, c).ledger == s.ledger
  {
    hide Offer, NewGrant, RequestsOk, GrantsOver, PendingUnder;
  }

  lemma StepAccounted(s: Kernel, c: Call)
    requires Inv(s) && !c.DoRestart?
    ensures Accounted(s, c, s.ledger.records, Step(s, c).ledger.records)
  {
    hide Inv, Accounted, StartRun, EndRun, Prepare, SurfaceAction, CommitInstall, Uninstall, CommitGrant, RevokeGrant,
         RevokeGrantsForResource, Upgrade, Authorize, Finalize, Abort, PlanOk, PendingOfRun;
    NoneAccounted(s, c, s.ledger.records);
    if Enabled(s, c) {
      match c
      case DoStartRun(app, parent) => StartAccounted(s, c, app, parent);
      case DoEndRun(run, how) => EndAccounted(s, c, s, run, how);
      case DoPrepare(a, t) => PrepareAccounted(s, c, s, a, false, t);
      case DoSurfaceAction(app, a, t) => SurfaceAccounted(s, app, a, t);
      case DoAuthorize(id, t) => AuthorizeAccounted(s, id, t);
      case DoFinalize(id, t) => FinalizeAccounted(s, id, t);
      case DoAbort(id) => AbortAccounted(s, id);
      case DoInstall(p, events, decisions, t) => InstallAccounted(s, p, events, decisions, t);
      case DoUninstall(app) => UninstallAccounted(s, app);
      case DoAwaitApproval(_, _) =>
      case DoExecute(_, _, _) =>
      case DoDropToken(_) =>
      case DoCancelRun(_) =>
      case _ => SilentLifecycle(s, c);
    }
  }

  /** In every reachable state, whatever the next call is, each record it appends is warranted. */
  lemma EveryRecordIsWarranted(script: seq<CommitOutcome>, calls: seq<Call>, c: Call, k: nat)
    requires !c.DoRestart?
    ensures var s := Run(Init(script), calls);
            && s.ledger.records <= Step(s, c).ledger.records
            && (|s.ledger.records| <= k < |Step(s, c).ledger.records| ==> Warranted(s, c, Step(s, c).ledger.records[k]))
  {
    hide Inv, Run, Step, Warranted;
    ReachableInv(script, calls);
    StepAccounted(Run(Init(script), calls), c);
  }
}
