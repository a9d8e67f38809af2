/**
  Which runs start and end, and which attempts are prepared, refused or rejected,
  against a store that commits.
 */
module Admission {
  import opened Basics
  import opened Domain
  import opened Ledger
  import opened Broker
  import opened KernelState
  import opened ActionPath
  import opened KernelInvariant
  import opened ActionInvariant
  import opened HeldWork
  import opened Reservations
  import opened Coverage
  import opened Attribution
  import opened Outcomes

  // ----- Runs -----

  /** A run starts exactly if its app is installed and its parent, if it names one, is an active run of that app. */
  lemma StartRunOutcome(s: Kernel, app: AppId, parent: Option<RunId>)
    requires Inv(s) && Willing(s)
    ensures var (s', r) := StartRun(s, app, parent);
            && (r.RunOpened? <==>
                  && app in s.registry
                  && (parent.Some? ==> Active(s.ledger.runs, parent.value) && s.ledger.runs[parent.value].app == app))
            && (!r.RunOpened? ==> r.Failure? && s' == s)
            && (r.RunOpened? ==>
                  && r.run !in s.ledger.runs && Active(s'.ledger.runs, r.run) && s'.ledger.runs[r.run].app == app
                  && s'.ledger.runs - {r.run} == s.ledger.runs
                  && s'.ledger.records == s.ledger.records + [Record(RunStarted(r.run, app, parent), 0)]
                  && s'.pending == s.pending && s'.registry == s.registry && s'.broker == s.broker)
  {
    hide Inv, Write;
    var r := Record(RunStarted(s.nextId, app, parent), 0);
    UnusedRun(s);
    StartsRun(s.(nextId := s.nextId + 1), r);
  }

  lemma UnusedRun(s: Kernel)
    requires Inv(s)
    ensures s.nextId !in s.ledger.runs
  {
    hide HandlersOk, PendingOk, BookOk, DiskOk;
  }

  lemma StartsRun(s: Kernel, r: Record)
    requires Willing(s) && r.event.RunStarted? && r.event.run !in s.ledger.runs
    ensures var (s', ok) := Write(s, [r]);
            && ok && s'.ledger.records == s.ledger.records + [r] && s'.ledger.runs - {r.event.run} == s.ledger.runs
            && Active(s'.ledger.runs, r.event.run) && s'.ledger.runs[r.event.run].app == r.event.app
  {
    assert [r][1..] == [] && AppendAll(Append(s.ledger, r), []) == Some(Append(s.ledger, r));
    assert Append(s.ledger, r).runs - {r.event.run} == s.ledger.runs;
  }

  /**
    A run ends exactly if it is active. With it goes exactly its own pending work, one
    cancellation each, and then the end is recorded the way it was asked for.
   */
  lemma EndRunOutcome(s: Kernel, run: RunId, how: RunEnd)
    requires Inv(s) && Willing(s)
    ensures var (s', r) := EndRun(s, run, how);
            && (r == Done <==> Active(s.ledger.runs, run)) && (r != Done ==> r.Failure? && s' == s)
            && (r == Done ==>
                  && (forall x :: x in s'.ledger.runs <==> x in s.ledger.runs)
                  && (forall x | x in s.ledger.runs ::
                        s'.ledger.runs[x] == if x == run then s.ledger.runs[x].(active := false) else s.ledger.runs[x])
                  && (forall id :: id in s'.pending <==> id in s.pending && s.pending[id].run != run)
                  && (forall id: InvId :: id in s'.flags <==> id in s.flags || (id in s.pending && s.pending[id].run == run))
                  && var n := |s'.ledger.records| - 1;
                  && s.ledger.records <= s'.ledger.records[..n] && s'.ledger.records[n] == Record(RunEnded(run, how), 0)
                  && (forall k | |s.ledger.records| <= k < n :: s'.ledger.records[k].event.Cancelled?)
                  && s'.registry == s.registry && s'.broker == s.broker && s'.artifacts == s.artifacts)
  {
    hide Inv, Close, Write;
    if Active(s.ledger.runs, run) {
      var ids := PendingOfRun(s, run);
      var rs := Close(s, ids);
      EndsRun(s, run, how);
      CloseCancels(s, ids);
      EndedLedger(s.ledger.records, rs, Record(RunEnded(run, how), 0));
    }
  }

  lemma EndsRun(s: Kernel, run: RunId, how: RunEnd)
    requires Inv(s) && Willing(s) && Active(s.ledger.runs, run)
    ensures var rs := Close(s, PendingOfRun(s, run)) + Ends([run], how);
            && rs == Close(s, PendingOfRun(s, run)) + [Record(RunEnded(run, how), 0)]
            && Write(s, rs).1 && Write(s, rs).0.ledger == RunLedger(s.ledger.records + rs, Deactivate(s.ledger.runs, {run}))
  {
    hide Inv, Close;
    ClosingBatch(s, PendingOfRun(s, run), [run], how);
    assert Elems([run]) == {run};
  }

  lemma EndedLedger(records: seq<Record>, rs: seq<Record>, last: Record)
    requires forall r | r in rs :: r.event.Cancelled?
    ensures var all := records + (rs + [last]);
            && all[|all| - 1] == last && records <= all[..|all| - 1]
            && forall k | |records| <= k < |all| - 1 :: all[k].event.Cancelled?
  {
    var all := records + (rs + [last]);
    forall k | |records| <= k < |all| - 1 ensures all[k].event.Cancelled? {
      assert all[k] == rs[k - |records|];
    }
  }

  lemma CloseCancels(s: Kernel, ids: set<InvId>)
    ensures forall r | r in Close(s, ids) :: r.event.Cancelled?
  {
  }

  // ----- Attempts -----

  /** What is asked of an attempt before any authority is considered. */
  predicate Admissible(s: Kernel, a: Attempt) {
    && (a.slot.data.NoData? || (a.slot.data.Resources? && a.slot.data.ids != [] && Distinct(a.slot.data.ids)))
    && Active(s.ledger.runs, a.run) && s.ledger.runs[a.run].app in s.registry
    && a.slot.cap.provider in s.registry && a.slot.cap.name in s.registry[a.slot.cap.provider].caps
    && a.inputOk
  }

  lemma AdmissibleIff(s: Kernel, a: Attempt)
    ensures Inadmissible(s, a).None? <==> Admissible(s, a)
  {
  }

  /** The grant the broker picks for the attempt. */
  function Picked(s: Kernel, a: Attempt, t: Clock): GrantCheck
    requires a.run in s.ledger.runs
  {
    Check(s.broker, t.wall, s.ledger.runs[a.run].app, a.slot)
  }

  lemma OpenOutcome(s: Kernel, a: Attempt, direct: bool, grant: Grant, t: Clock)
    requires Inv(s) && Willing(s) && Admissible(s, a)
    ensures var (s', r) := Open(s, a, direct, s.ledger.runs[a.run].app, grant, t);
            && (r.WorkPrepared? <==> Bound(s.handlers, a.slot.cap) && (grant.condition == Notify && !direct ==> a.noticeOk))
            && (!r.WorkPrepared? ==> r.Failure? && s' == s)
            && (r.WorkPrepared? ==>
                  && r.id == s.nextInv && |s'.ledger.records| == |s.ledger.records| + 1 && s.ledger.records <= s'.ledger.records
                  && s'.pending == s.pending[r.id := Pending(a.run, s.ledger.runs[a.run].app, a.slot, grant,
                                                             s.registry[a.slot.cap.provider], t.now + a.timeout, false)])
  {
    hide Inv, Write;
    var key := Key(a.slot, grant.id);
    Commits(s, [Record(ApprovalRequested(a.run, key), s.nextInv)]);
    Commits(s, [Record(Invoked(a.run, key), s.nextInv)]);
  }

  /** The kernel after reaping; what is left is exactly the work that is neither cancelled nor late. */
  lemma ReapOutcome(s: Kernel, now: Time)
    requires Inv(s) && Willing(s)
    ensures var (s', ok) := Reap(s, now);
            && ok && Inv(s') && Willing(s') && s'.ledger.runs == s.ledger.runs && s'.registry == s.registry
            && s'.broker == s.broker && s'.handlers == s.handlers && s'.nextInv == s.nextInv
            && (forall id :: id in s'.pending <==> id in s.pending && id !in s.flags && now < s.pending[id].deadline)
            && (forall id | id in s'.pending :: s'.pending[id] == s.pending[id])
  {
    hide Inv, Write, Close;
    ReapInv(s, now);
    ReapKeepsRuns(s, now);
    ReapFewer(s, now);
    var ids := PendingDue(s, now);
    CloseRecords(s, ids);
    AppendQuiet(s.ledger, Close(s, ids));
    WillingWrite(s, Close(s, ids));
  }

  /**
    Preparing against a store that commits. Cancelled and late work goes first, and no other.
    An admissible attempt is refused exactly if no usable grant was issued to the app of its
    run; otherwise it becomes pending work under the grant the broker picks, exactly if its
    handler is bound and a notice the grant asks for was shown. Everything else is an error.
   */
  lemma PrepareOutcome(s: Kernel, a: Attempt, direct: bool, t: Clock)
    requires Inv(s) && Willing(s)
    ensures var (s', r) := Prepare(s, a, direct, t);
            && (forall id | id in s.pending :: id in s'.pending <==> id !in s.flags && t.now < s.pending[id].deadline)
            && (!Admissible(s, a) ==> r.Failure?)
            && (Admissible(s, a) ==>
                  && var app := s.ledger.runs[a.run].app;
                  && (r.Refusal? <==> forall i :: !Usable(s.broker, t.wall, app, a.slot, i))
                  && (r.Refusal? ==> Picked(s, a, t).Denied? && r == Refusal(ByDenial(Picked(s, a, t).reason)))
                  && (r.WorkPrepared? <==>
                        && !Picked(s, a, t).Denied? && Bound(s.handlers, a.slot.cap)
                        && (Picked(s, a, t).grant.condition == Notify && !direct ==> a.noticeOk))
                  && (!r.Refusal? && !r.WorkPrepared? ==> r.Failure?))
            && (r.WorkPrepared? ==>
                  && a.run in s.ledger.runs && !Picked(s, a, t).Denied? && a.slot.cap.provider in s.registry
                  && r.id == s.nextInv && r.id in s'.pending
                  && s'.pending[r.id] == Pending(a.run, s.ledger.runs[a.run].app, a.slot, Picked(s, a, t).grant,
                                                 s.registry[a.slot.cap.provider], t.now + a.timeout, false))
            && var before := Reap(s, t.now).0.ledger.records;
            && before <= s'.ledger.records && |s'.ledger.records| == |before| + if r.Failure? then 0 else 1
  {
    hide Inv, Write, Reap, Check, Open, Admissible, Inadmissible, Usable;
    ReapOutcome(s, t.now);
    var s1 := Reap(s, t.now).0;
    AdmissibleIff(s1, a);
    SameAdmission(s, s1, a);
    forall id | id in s.pending ensures id < s.nextInv {
      EntryFacts(s, id);
    }
    if Admissible(s, a) {
      AdmittedRun(s, a);
      var app := s.ledger.runs[a.run].app;
      var check := Picked(s, a, t);
      DeniedIff(s.broker, t.wall, app, a.slot);
      if check.Denied? {
        Commits(s1, [Record(Refused(a.run, a.slot, check.reason), 0)]);
      } else {
        OpenOutcome(s1, a, direct, check.grant, t);
      }
    }
  }

  lemma AdmittedRun(s: Kernel, a: Attempt)
    requires Admissible(s, a)
    ensures Active(s.ledger.runs, a.run) && Declares(s.registry, a.slot.cap)
  {
  }

  lemma SameAdmission(s: Kernel, s1: Kernel, a: Attempt)
    requires s1.ledger.runs == s.ledger.runs && s1.registry == s.registry
    ensures Admissible(s, a) <==> Admissible(s1, a)
  {
  }

  /**
    A surface action runs in a run of its own, which it leaves open exactly if the attempt was not
    an error; the runs there were go on as they did.
   */
  lemma SurfaceOutcome(s: Kernel, app: AppId, a: Attempt, t: Clock)
    requires Inv(s) && Willing(s)
    ensures var (s', r) := SurfaceAction(s, app, a, t);
            && (app !in s.registry ==> r.Failure? && s' == s)
            && (app in s.registry ==>
                  && s.nextId !in s.ledger.runs && s.nextId in s'.ledger.runs && s'.ledger.runs[s.nextId].app == app
                  && (s'.ledger.runs[s.nextId].active <==> !r.Failure?)
                  && s'.ledger.runs - {s.nextId} == s.ledger.runs)
            && (r.WorkPrepared? ==> r.id in s'.pending && s'.pending[r.id].run == s.nextId && s'.pending[r.id].app == app)
  {
    hide Inv, StartRun, Prepare, EndRun;
    StartRunOutcome(s, app, None);
    if app in s.registry {
      StartRunInv(s, app, None);
      SurfaceEnters(s, app, a, t);
      StartWilling(s, app);
      var s1, own := StartRun(s, app, None).0, app == a.slot.cap.provider;
      var a' := a.(run := s.nextId);
      PrepareOutcome(s1, a', own, t);
      PrepareKeepsRuns(s1, a', own, t);
      PrepareInv(s1, a', own, t);
      WillingPrepare(s1, a', own, t);
      var (s2, r2) := Prepare(s1, a', own, t);
      if r2.Failure? {
        EndRunOutcome(s2, s.nextId, RunFailed);
        var s3 := EndRun(s2, s.nextId, RunFailed).0;
        assert s3.ledger.runs - {s.nextId} == s1.ledger.runs - {s.nextId};
      }
    }
  }

  lemma StartWilling(s: Kernel, app: AppId)
    requires Willing(s)
    ensures Willing(StartRun(s, app, None).0)
  {
    hide Write;
    WillingWrite(s.(nextId := s.nextId + 1), [Record(RunStarted(s.nextId, app, None), 0)]);
  }

  /** Preparing starts and ends no run. */
  lemma PrepareKeepsRuns(s: Kernel, a: Attempt, direct: bool, t: Clock)
    requires Inv(s)
    ensures Prepare(s, a, direct, t).0.ledger.runs == s.ledger.runs
  {
    hide Inv, Write, Check, Reap, Open;
    ReapKeepsRuns(s, t.now);
    var (s1, ok) := Reap(s, t.now);
    if ok && Inadmissible(s1, a).None? {
      var app := s1.ledger.runs[a.run].app;
      var check := Check(s1.broker, t.wall, app, a.slot);
      if check.Denied? {
        WriteKeepsRuns(s1, Record(Refused(a.run, a.slot, check.reason), 0));
      } else {
        OpenKeepsRuns(s1, a, direct, app, check.grant, t);
      }
    }
  }

  lemma OpenKeepsRuns(s: Kernel, a: Attempt, direct: bool, app: AppId, grant: Grant, t: Clock)
    requires Declares(s.registry, a.slot.cap)
    ensures Open(s, a, direct, app, grant, t).0.ledger.runs == s.ledger.runs
  {
    hide Write;
    var key := Key(a.slot, grant.id);
    WriteKeepsRuns(s, Record(ApprovalRequested(a.run, key), s.nextInv));
    WriteKeepsRuns(s, Record(Invoked(a.run, key), s.nextInv));
  }
}
