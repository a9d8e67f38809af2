/**
  What histories look like between two states of one session, and the promise that
  no result is dispatched or recorded late.
 */
module History {
  import opened Basics
  import opened Domain
  import opened Ledger
  import opened Broker
  import opened KernelState
  import opened ActionPath
  import opened Lifecycle
  import opened KernelInvariant

  predicate IsResult(e: Event) {
    e.Produced? || e.Completed?
  }

  predicate NoResults(rs: seq<Record>) {
    forall r | r in rs :: !IsResult(r.event)
  }

  /** The same reservation, apart from whether its execution was authorized. */
  predicate SameReservation(p: Pending, p': Pending) {
    p.(authorized := true) == p'.(authorized := true)
  }

  /** Records were added, none of them a result. */
  predicate GrewQuietly(records: seq<Record>, records': seq<Record>) {
    records <= records' && NoResults(records'[|records|..])
  }

  predicate ReservationsKept(pending: PendingTable, pending': PendingTable, nextInv: InvId) {
    forall id | id in pending' :: nextInv <= id || (id in pending && SameReservation(pending[id], pending'[id]))
  }

  /** Reservations do not change, ids are not used again, no cancellation is taken back. */
  predicate TablesEvolve(s: Kernel, s': Kernel) {
    ReservationsKept(s.pending, s'.pending, s.nextInv) && s.nextInv <= s'.nextInv && s.flags <= s'.flags
  }

  predicate Evolves(s: Kernel, s': Kernel) {
    s.ledger.records <= s'.ledger.records && TablesEvolve(s, s')
  }

  predicate EvolvesQuietly(s: Kernel, s': Kernel) {
    GrewQuietly(s.ledger.records, s'.ledger.records) && TablesEvolve(s, s')
  }

  lemma TablesTrans(s: Kernel, s1: Kernel, s2: Kernel)
    requires TablesEvolve(s, s1) && TablesEvolve(s1, s2)
    ensures TablesEvolve(s, s2)
  {
    forall id | id in s2.pending
      ensures s.nextInv <= id || (id in s.pending && SameReservation(s.pending[id], s2.pending[id]))
    {
      assert s1.nextInv <= id || (id in s1.pending && SameReservation(s1.pending[id], s2.pending[id]));
    }
  }

  lemma GrewTrans(a: seq<Record>, b: seq<Record>, c: seq<Record>)
    requires GrewQuietly(a, b) && GrewQuietly(b, c)
    ensures GrewQuietly(a, c)
  {
    assert c[..|b|] == b;
    assert c[|a|..] == b[|a|..] + c[|b|..];
  }

  lemma QuietlyTrans(s: Kernel, s1: Kernel, s2: Kernel)
    requires EvolvesQuietly(s, s1) && EvolvesQuietly(s1, s2)
    ensures EvolvesQuietly(s, s2)
  {
    GrewTrans(s.ledger.records, s1.ledger.records, s2.ledger.records);
    TablesTrans(s, s1, s2);
  }

  lemma WriteGrew(s: Kernel, rs: seq<Record>)
    requires NoResults(rs)
    ensures GrewQuietly(s.ledger.records, Write(s, rs).0.ledger.records)
  {
    hide Write, NoResults;
    var n, ok := |s.ledger.records|, Write(s, rs).1;
    assert Write(s, rs).0.ledger.records[n..] == if ok then rs else [];
    NoGrowth([]);
  }

  lemma NoGrowth(records: seq<Record>)
    ensures GrewQuietly(records, records) && NoResults([])
  {
  }

  lemma OneQuiet(e: Event, id: InvId)
    requires !IsResult(e)
    ensures NoResults([Record(e, id)])
  {
  }

  lemma CloseQuiet(s: Kernel, ids: set<InvId>, runs: seq<RunId>, how: RunEnd)
    ensures NoResults(Close(s, ids)) && NoResults(Close(s, ids) + Ends(runs, how))
  {
  }

  // ----- The operations -----

  lemma StartEvolves(s: Kernel, app: AppId, parent: Option<RunId>)
    ensures EvolvesQuietly(s, StartRun(s, app, parent).0)
  {
    hide Write, GrewQuietly;
    var e := RunStarted(s.nextId, app, parent);
    OneQuiet(e, 0);
    NoGrowth(s.ledger.records);
    WriteGrew(s.(nextId := s.nextId + 1), [Record(e, 0)]);
  }

  lemma EndEvolves(s: Kernel, run: RunId, how: RunEnd)
    ensures EvolvesQuietly(s, EndRun(s, run, how).0)
  {
    hide Write, Close, GrewQuietly;
    var ids := PendingOfRun(s, run);
    CloseQuiet(s, ids, [run], how);
    NoGrowth(s.ledger.records);
    WriteGrew(s, Close(s, ids) + Ends([run], how));
  }

  lemma ReapEvolves(s: Kernel, now: Time)
    ensures EvolvesQuietly(s, Reap(s, now).0)
  {
    hide Write, Close, GrewQuietly;
    var ids := PendingDue(s, now);
    CloseQuiet(s, ids, [], RunFailed);
    NoGrowth(s.ledger.records);
    WriteGrew(s, Close(s, ids));
  }

  lemma OpenEvolves(s: Kernel, a: Attempt, direct: bool, app: AppId, grant: Grant, t: Clock)
    requires Declares(s.registry, a.slot.cap)
    ensures EvolvesQuietly(s, Open(s, a, direct, app, grant, t).0)
  {
    hide Write, GrewQuietly;
    var e := if NeedsPrompt(s, a, direct, grant) then ApprovalRequested(a.run, Key(a.slot, grant.id))
             else Invoked(a.run, Key(a.slot, grant.id));
    OneQuiet(e, s.nextInv);
    NoGrowth(s.ledger.records);
    WriteGrew(s, [Record(e, s.nextInv)]);
  }

  lemma PrepareEvolves(s: Kernel, a: Attempt, direct: bool, t: Clock)
    ensures EvolvesQuietly(s, Prepare(s, a, direct, t).0)
  {
    hide Write, Reap, Open, GrewQuietly, TablesEvolve, Check;
    ReapEvolves(s, t.now);
    var (s1, ok) := Reap(s, t.now);
    if ok && Inadmissible(s1, a).None? {
      var app := s1.ledger.runs[a.run].app;
      var check := Check(s1.broker, t.wall, app, a.slot);
      if check.Denied? {
        var e := Refused(a.run, a.slot, check.reason);
        OneQuiet(e, 0);
        WriteGrew(s1, [Record(e, 0)]);
      } else {
        OpenEvolves(s1, a, direct, app, check.grant, t);
      }
      QuietlyTrans(s, s1, Prepare(s, a, direct, t).0);
    }
  }

  lemma SurfaceEvolves(s: Kernel, app: AppId, a: Attempt, t: Clock)
    ensures EvolvesQuietly(s, SurfaceAction(s, app, a, t).0)
  {
    hide StartRun, Prepare, EndRun, EvolvesQuietly;
    StartEvolves(s, app, None);
    var (s1, r) := StartRun(s, app, None);
    if r.RunOpened? {
      var a', own := a.(run := r.run), app == a.slot.cap.provider;
      PrepareEvolves(s1, a', own, t);
      var s2 := Prepare(s1, a', own, t).0;
      QuietlyTrans(s, s1, s2);
      EndEvolves(s2, r.run, RunFailed);
      QuietlyTrans(s, s2, EndRun(s2, r.run, RunFailed).0);
    }
  }

  lemma StaleEvolves(s: Kernel, id: InvId, v: Verdict)
    requires id in s.pending
    ensures EvolvesQuietly(s, CloseStale(s, id, v).0)
  {
    hide Write, GrewQuietly;
    var p := s.pending[id];
    var s0 := if v.Stopped? then s.(flags := s.flags + {id}) else s;
    var e := if v.NotGranted? then Refused(p.run, p.slot, v.reason) else Cancelled(p.run, p.slot);
    OneQuiet(e, id);
    NoGrowth(s.ledger.records);
    WriteGrew(s0, [Record(e, id)]);
  }

  lemma DispatchEvolves(s: Kernel, id: InvId, t: Clock)
    requires id in s.pending
    ensures EvolvesQuietly(s, Dispatch(s, id, t).0)
  {
    hide Write, CloseStale, Revalidate, GrewQuietly;
    var p, v := s.pending[id], Revalidate(s, id, t);
    if !v.Live? {
      StaleEvolves(s, id, v);
    } else {
      var e := Invoked(p.run, p.Key());
      OneQuiet(e, id);
      NoGrowth(s.ledger.records);
      WriteGrew(s, [Record(e, id)]);
    }
  }

  /** Giving up a token, with or without its reservation, after any evolution. */
  lemma SpentEvolves(s: Kernel, s': Kernel, id: InvId, ok: bool)
    requires EvolvesQuietly(s, s')
    ensures EvolvesQuietly(s, SpendToken(s', id)) && EvolvesQuietly(s, SpendToken(Consume(s', id, ok), id))
  {
    hide GrewQuietly;
  }

  lemma TokensDoNotMatter(s: Kernel, id: InvId, s': Kernel)
    requires EvolvesQuietly(s.(tokens := s.tokens - {id}), s')
    ensures EvolvesQuietly(s, s')
  {
    hide GrewQuietly;
  }

  lemma AuthorizeEvolves(s: Kernel, id: InvId, t: Clock)
    requires id in s.tokens && s.tokens[id].Answered?
    ensures EvolvesQuietly(s, Authorize(s, id, t).0)
  {
    hide Write, Dispatch, EvolvesQuietly, Consume, SpendToken;
    var s0, s', decision := s.(tokens := s.tokens - {id}), Authorize(s, id, t).0, s.tokens[id].decision;
    Unmoved(s0);
    if id !in s.pending || s.pending[id].authorized {
      SpentEvolves(s0, s0, id, true);
    } else if decision.None? {
      DispatchEvolves(s0, id, t);
    } else {
      var p := s.pending[id];
      var e := if decision.value then ApprovalGranted(p.run, p.Key()) else ApprovalDenied(p.run, p.Key());
      var (s1, ok) := Write(s0, [Record(e, id)]);
      AnsweredEvolves(s0, id, t, decision.value);
      SpentEvolves(s0, s1, id, ok);
    }
    TokensDoNotMatter(s, id, s');
  }

  lemma Unmoved(s: Kernel)
    ensures EvolvesQuietly(s, s)
  {
    hide GrewQuietly;
    NoGrowth(s.ledger.records);
  }

  lemma AnsweredEvolves(s: Kernel, id: InvId, t: Clock, approved: bool)
    requires id in s.pending
    ensures var p := s.pending[id];
            var e := if approved then ApprovalGranted(p.run, p.Key()) else ApprovalDenied(p.run, p.Key());
            var s1 := Write(s, [Record(e, id)]).0;
            EvolvesQuietly(s, s1) && EvolvesQuietly(s, Dispatch(s1, id, t).0)
  {
    hide Write, Dispatch, GrewQuietly;
    var p := s.pending[id];
    var e := if approved then ApprovalGranted(p.run, p.Key()) else ApprovalDenied(p.run, p.Key());
    var s1 := Write(s, [Record(e, id)]).0;
    OneQuiet(e, id);
    WriteGrew(s, [Record(e, id)]);
    DispatchEvolves(s1, id, t);
    QuietlyTrans(s, s1, Dispatch(s1, id, t).0);
  }

  lemma FailEvolves(s: Kernel, id: InvId)
    requires id in s.pending
    ensures EvolvesQuietly(s, Fail(s, id).0)
  {
    hide Write, GrewQuietly;
    var e := Failed(s.pending[id].run, s.pending[id].Key());
    OneQuiet(e, id);
    WriteGrew(s, [Record(e, id)]);
  }

  lemma CompleteEvolves(s: Kernel, id: InvId, drafts: seq<Draft>)
    requires id in s.pending
    ensures Evolves(s, Complete(s, id, drafts).0)
    ensures var rs := Complete(s, id, drafts).0.ledger.records[|s.ledger.records|..];
            forall r | r in rs :: r.inv == id
  {
    hide Complete;
    var p := s.pending[id];
    var rs := ProductionRecords(s, id, drafts) + [Record(Completed(p.run, p.Key()), id)];
    var s' := Complete(s, id, drafts).0;
    CompleteAppends(s, id, drafts);
    assert s'.ledger.records[|s.ledger.records|..] == if s'.ledger == s.ledger then [] else rs;
  }

  lemma CompleteAppends(s: Kernel, id: InvId, drafts: seq<Draft>)
    requires id in s.pending
    ensures var s' := Complete(s, id, drafts).0;
            var rs := ProductionRecords(s, id, drafts) + [Record(Completed(s.pending[id].run, s.pending[id].Key()), id)];
            && (s'.ledger == s.ledger || s'.ledger.records == s.ledger.records + rs)
            && s'.pending == s.pending - {id} && s'.nextInv == s.nextInv && s'.flags == s.flags
  {
    hide StampedArtifacts, ProductionRecords, CommitCompletion;
  }

  lemma AbortEvolves(s: Kernel, id: InvId)
    requires id in s.tokens && (s.tokens[id].Prepared? || s.tokens[id].Authorized?)
    ensures EvolvesQuietly(s, Abort(s, id).0)
  {
    hide Write, GrewQuietly;
    NoGrowth(s.ledger.records);
    if id in s.pending {
      var e := Cancelled(s.pending[id].run, s.pending[id].slot);
      OneQuiet(e, id);
      WriteGrew(s, [Record(e, id)]);
    }
  }

  /** The ledger did not move, and reservations at most disappeared. */
  lemma Untouched(s: Kernel, s': Kernel)
    requires s'.ledger == s.ledger && s'.pending == s.pending && s'.nextInv == s.nextInv && s.flags <= s'.flags
    ensures EvolvesQuietly(s, s')
  {
    NoGrowth(s.ledger.records);
  }

  lemma GrantEvolves(s: Kernel, h: AppId, q: Request, approved: bool, hh: Manifest, ph: Manifest, t: Clock)
    ensures EvolvesQuietly(s, CommitGrant(s, h, q, approved, hh, ph, t).0)
  {
    hide EvolvesQuietly, Offer, NewGrant;
    Untouched(s, CommitGrant(s, h, q, approved, hh, ph, t).0);
  }

  lemma RevokeEvolves(s: Kernel, ids: set<GrantId>)
    ensures EvolvesQuietly(s, RevokeAll(s, ids).0) && EvolvesQuietly(s, s)
  {
    hide EvolvesQuietly, PendingUnder, Offer;
    Untouched(s, RevokeAll(s, ids).0);
    Untouched(s, s);
  }

  lemma UpgradeEvolves(s: Kernel, m: Manifest, offered: set<CapName>)
    ensures EvolvesQuietly(s, Upgrade(s, m, offered).0)
  {
    hide EvolvesQuietly, RequestsOk, Offer;
    Untouched(s, Upgrade(s, m, offered).0);
  }

  lemma OutsideEvolves(s: Kernel, id: InvId, answer: bool, outcome: Execution, now: Time, run: RunId)
    ensures id in s.tokens && s.tokens[id].Prepared? ==> EvolvesQuietly(s, AwaitApproval(s, id, answer))
    ensures id in s.tokens && s.tokens[id].Authorized? ==> EvolvesQuietly(s, Execute(s, id, outcome, now))
    ensures id in s.tokens ==> EvolvesQuietly(s, DropToken(s, id))
    ensures EvolvesQuietly(s, CancelRun(s, run))
  {
    hide EvolvesQuietly, PendingOfRun;
    Untouched(s, CancelRun(s, run));
    if id in s.tokens {
      Untouched(s, DropToken(s, id));
      if s.tokens[id].Prepared? {
        Untouched(s, AwaitApproval(s, id, answer));
      }
      if s.tokens[id].Authorized? {
        Untouched(s, Execute(s, id, outcome, now));
      }
    }
  }

  /** A closing batch was adopted: quiet records, and fewer reservations. */
  lemma AdoptedQuietly(s: Kernel, s': Kernel, rs: seq<Record>)
    requires NoResults(rs) && s'.ledger.records == s.ledger.records + rs
    requires s'.pending.Keys <= s.pending.Keys && (forall id | id in s'.pending :: s'.pending[id] == s.pending[id])
    requires s'.nextInv == s.nextInv && s.flags <= s'.flags
    ensures EvolvesQuietly(s, s')
  {
    assert s'.ledger.records[|s.ledger.records|..] == rs;
  }

  lemma AdoptEvolves(s: Kernel, p: Plan, decisions: seq<bool>, t: Clock)
    ensures EvolvesQuietly(s, Adopt(s, p, decisions, t).0)
  {
    hide Reconcile, StagedBroker, StagedClose, ClosedWork, AppendAll, EvolvesQuietly, Offer;
    var s' := Adopt(s, p, decisions, t).0;
    if s'.ledger == s.ledger && s'.pending == s.pending {
      Untouched(s, s');
    } else {
      StagedCloseQuiet(s, p);
      AdoptedQuietly(s, s', StagedClose(s, p));
    }
  }

  lemma StagedCloseQuiet(s: Kernel, p: Plan)
    ensures NoResults(StagedClose(s, p))
  {
    var app := p.manifest.app;
    CloseQuiet(s, PendingOfApp(s, app), InOrder(ActiveRuns(s.ledger.runs, app), s.nextId), RunCancelled);
  }

  lemma InstallEvolves(s: Kernel, p: Plan, eventsApproved: bool, decisions: seq<bool>, t: Clock)
    ensures EvolvesQuietly(s, CommitInstall(s, p, eventsApproved, decisions, t).0)
  {
    hide Adopt, EvolvesQuietly, RequestsOk, HashesCurrent;
    AdoptEvolves(s, p, decisions, t);
    Untouched(s, s);
  }

  lemma UninstallEvolves(s: Kernel, app: AppId)
    ensures EvolvesQuietly(s, Uninstall(s, app).0)
  {
    hide Close, PendingOfApp, Ends, InOrder, ActiveRuns, AppendAll, EvolvesQuietly, Offer;
    var ids, runs := PendingOfApp(s, app), InOrder(ActiveRuns(s.ledger.runs, app), s.nextId);
    CloseQuiet(s, ids, runs, RunCancelled);
    var s' := Uninstall(s, app).0;
    if s'.ledger == s.ledger && s'.pending == s.pending {
      Untouched(s, s');
    } else {
      AdoptedQuietly(s, s', Close(s, ids) + Ends(runs, RunCancelled));
    }
  }
}
