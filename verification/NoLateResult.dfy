/**
  No late result: execution is dispatched, and artifacts or a completion are
  recorded, only while everything the invocation was prepared under still holds.
 */
module NoLateResult {
  import opened Basics
  import opened Domain
  import opened Ledger
  import opened Broker
  import opened ActionLog
  import opened KernelState
  import opened ActionPath
  import opened Lifecycle
  import opened Provenance
  import opened KernelInvariant
  import opened ActionInvariant
  import opened Runs
  import opened History

  /**
    The run is active and the acting app's, both apps are installed, the provider's
    content and the grant are those of preparation and the grant is live, the
    deadline has not passed, and no cancellation was requested.
   */
  predicate MayProceed(s: Kernel, id: InvId, t: Clock) {
    && id in s.pending
    && var p := s.pending[id];
    && Active(s.ledger.runs, p.run) && s.ledger.runs[p.run].app == p.app
    && p.app in s.registry && p.slot.cap.provider in s.registry
    && s.registry[p.slot.cap.provider] == p.hash
    && p.grant in s.broker.grants && s.broker.Live(p.grant, t.wall) && CoversFor(p.grant, p.app, p.slot)
    && t.now < p.deadline && id !in s.flags
  }

  lemma LiveMeans(s: Kernel, id: InvId, t: Clock)
    requires Inv(s) && id in s.pending && Revalidate(s, id, t).Live?
    ensures MayProceed(s, id, t)
  {
    hide Inv;
    EntryFacts(s, id);
    var p := s.pending[id];
    var g := Check(s.broker, t.wall, p.app, p.slot).grant;
    OneGrantPerId(s, g, p.grant);
  }

  lemma OneGrantPerId(s: Kernel, g: Grant, g': Grant)
    requires Inv(s) && g in s.broker.grants && g' in s.broker.grants && g.id == g'.id
    ensures g == g'
  {
    hide BookOk, DiskOk, HandlersOk, PendingOk, Validated;
    var i :| 0 <= i < |s.broker.grants| && s.broker.grants[i] == g;
    var j :| 0 <= j < |s.broker.grants| && s.broker.grants[j] == g';
  }

  /** With a bound handler and active runs, revalidation never finds the run or an app gone. */
  lemma NeverGone(s: Kernel, id: InvId, t: Clock)
    requires Inv(s) && id in s.pending
    ensures !Revalidate(s, id, t).RunGone? && !Revalidate(s, id, t).AppGone?
  {
    hide Inv;
    EntryFacts(s, id);
  }

  // ----- Approval comes first -----

  predicate AskedAt(records: seq<Record>, i: int, id: InvId) {
    0 <= i < |records| && records[i].inv == id && records[i].event.ApprovalRequested?
  }

  /** If a prompt was raised for the invocation, its approval is recorded after the request. */
  ghost predicate ApprovedIfAsked(records: seq<Record>, id: InvId) {
    (exists k :: AskedAt(records, k, id)) ==>
      exists i, j :: AskedAt(records, i, id) && i < j < |records|
        && records[j] == Record(ApprovalGranted(records[i].event.run, records[i].event.key), id)
  }

  lemma {:induction false} AskedIsPrompted(records: seq<Record>, k: nat, id: InvId)
    requires Track(records, false).Some? && id != 0 && AskedAt(records, k, id)
    ensures id in Track(records, false).value && Track(records, false).value[id].prompted
  {
    var n := |records| - 1;
    if k < n {
      assert AskedAt(records[..n], k, id);
      AskedIsPrompted(records[..n], k, id);
    }
  }

  lemma ExecutingIsApproved(records: seq<Record>, id: InvId)
    requires Track(records, false).Some? && id != 0
    requires id in Track(records, false).value && Track(records, false).value[id].phase == Executing
    ensures ApprovedIfAsked(records, id)
  {
    var it := Track(records, false).value[id];
    if k :| AskedAt(records, k, id) {
      AskedIsPrompted(records, k, id);
      ApprovedBeforeExecuting(records, id);
      var i, j :| 0 <= i < j < |records| && records[i] == Record(ApprovalRequested(it.run, it.key), id)
        && records[j] == Record(ApprovalGranted(it.run, it.key), id);
      assert AskedAt(records, i, id);
    }
  }

  lemma AuthorizedIsApproved(s: Kernel, id: InvId)
    requires Inv(s) && id in s.pending && s.pending[id].authorized
    ensures ApprovedIfAsked(s.ledger.records, id)
  {
    hide Inv;
    EntryFacts(s, id);
    ExecutingIsApproved(s.ledger.records, id);
  }

  // ----- Dispatch -----

  lemma DispatchWhen(s: Kernel, id: InvId, t: Clock)
    requires id in s.pending
    ensures var (s', r) := Dispatch(s, id, t);
            && (r == Dispatched ==> Revalidate(s, id, t).Live? && id in s'.pending && s'.pending[id].authorized)
            && (r == Dispatched <==> id in s'.tokens)
  {
    hide Write, Revalidate;
  }

  lemma AnsweredGrant(s: Kernel, id: InvId, e: Event, t: Clock)
    requires id in s.pending && Revalidate(Write(s, [Record(e, id)]).0, id, t).Live? && Write(s, [Record(e, id)]).1
    requires !e.RunEnded? && !e.RunStarted?
    ensures Revalidate(s, id, t).Live?
  {
    assert IndexEvent(s.ledger.runs, e) == s.ledger.runs;
    assert AppendAll(Append(s.ledger, Record(e, id)), []) == Some(Append(s.ledger, Record(e, id)));
  }

  /** Authorizing dispatches only work that may proceed, and only approved work. */
  lemma DispatchedInTime(s: Kernel, id: InvId, t: Clock)
    requires Inv(s) && id in s.tokens && s.tokens[id].Answered?
    ensures var (s', r) := Authorize(s, id, t);
            && (r == Dispatched <==> id in s'.tokens)
            && (r == Dispatched ==>
                  MayProceed(s, id, t) && ApprovedIfAsked(s'.ledger.records, id) && s.tokens[id].decision != Some(false))
  {
    hide Inv, Write, Dispatch, Revalidate, MayProceed, ApprovedIfAsked;
    var s0 := s.(tokens := s.tokens - {id});
    AuthorizeInv(s, id, t);
    SpendTokenInv(s, id);
    var (s', r) := Authorize(s, id, t);
    if id in s.pending && !s.pending[id].authorized {
      var decision, p := s.tokens[id].decision, s.pending[id];
      var e := ApprovalGranted(p.run, p.Key());
      var (s1, ok) := if decision.None? then (s0, true) else Write(s0, [Record(e, id)]);
      if decision != Some(false) && ok {
        DispatchWhen(s1, id, t);
        if r == Dispatched {
          if decision.Some? {
            AnsweredGrant(s0, id, e, t);
          }
          LiveMeans(s0, id, t);
          SameProceed(s, s0, id, t);
          AuthorizedIsApproved(s', id);
        }
      }
    }
  }

  lemma SameProceed(s: Kernel, s0: Kernel, id: InvId, t: Clock)
    requires MayProceed(s0, id, t) && s0 == s.(tokens := s0.tokens)
    ensures MayProceed(s, id, t)
  {
  }

  // ----- Results -----

  lemma FinalizedInTime(s: Kernel, id: InvId, t: Clock)
    requires Inv(s) && id in s.tokens && s.tokens[id].Executed?
    ensures Evolves(s, Finalize(s, id, t).0)
    ensures var rs := Finalize(s, id, t).0.ledger.records[|s.ledger.records|..];
            NoResults(rs) || ((forall r | r in rs :: r.inv == id) && MayProceed(s, id, t)
                              && ApprovedIfAsked(s.ledger.records, id))
  {
    hide Inv, Complete, CloseStale, Fail, Revalidate, DraftsOk, GrewQuietly, TablesEvolve, NoResults, MayProceed,
         ApprovedIfAsked;
    var x := s.tokens[id].execution;
    var s0 := s.(tokens := s.tokens - {id});
    SpendTokenInv(s, id);
    Untouched(s0, s0);
    if id in s.pending && s.pending[id].authorized {
      var v := Revalidate(s0, id, t);
      if !v.Live? || x.Skipped? {
        StaleEvolves(s0, id, if v.Live? then Stopped else v);
      } else if x.Returned? && x.resultOk && DraftsOk(s0, s0.pending[id].slot.cap.provider, x.drafts) {
        CompleteEvolves(s0, id, x.drafts);
        LiveMeans(s0, id, t);
        SameProceed(s, s0, id, t);
        AuthorizedIsApproved(s0, id);
      } else {
        FailEvolves(s0, id);
      }
    }
    SameTables(s, s0, Finalize(s, id, t).0);
  }

  lemma SameTables(s: Kernel, s0: Kernel, s': Kernel)
    requires s0 == s.(tokens := s0.tokens)
    ensures EvolvesQuietly(s0, s') ==> Evolves(s, s') && NoResults(s'.ledger.records[|s.ledger.records|..])
    ensures Evolves(s0, s') ==> Evolves(s, s')
  {
  }

  lemma StepEvolves(s: Kernel, c: Call)
    requires Inv(s) && !c.DoRestart?
    ensures Evolves(s, Step(s, c)) && (!c.DoFinalize? ==> EvolvesQuietly(s, Step(s, c)))
  {
    hide Inv, StartRun, EndRun, Prepare, SurfaceAction, CommitGrant, RevokeAll, GrantsOver, CommitInstall, Upgrade,
         Uninstall, Authorize, Finalize, Abort, AwaitApproval, Execute, DropToken, CancelRun, PlanOk, GrewQuietly,
         TablesEvolve;
    QuietEvolves(s, Step(s, c));
    if Enabled(s, c) {
      match c
      case DoStartRun(app, parent) => StartEvolves(s, app, parent);
      case DoEndRun(run, how) => EndEvolves(s, run, how);
      case DoPrepare(a, t) => PrepareEvolves(s, a, false, t);
      case DoSurfaceAction(app, a, t) => SurfaceEvolves(s, app, a, t);
      case DoGrant(h, q, approved, hh, ph, t) => GrantEvolves(s, h, q, approved, hh, ph, t);
      case DoRevoke(id) => RevokeEvolves(s, {id});
      case DoRevokeResource(r) => RevokeEvolves(s, GrantsOver(s.broker, r));
      case DoInstall(p, events, decisions, t) => InstallEvolves(s, p, events, decisions, t);
      case DoUpgrade(m, offered) => UpgradeEvolves(s, m, offered);
      case DoUninstall(app) => UninstallEvolves(s, app);
      case DoAuthorize(id, t) => AuthorizeEvolves(s, id, t);
      case DoFinalize(id, t) => FinalizedInTime(s, id, t);
      case DoAbort(id) => AbortEvolves(s, id);
      case DoAwaitApproval(id, answer) => OutsideEvolves(s, id, answer, Skipped, 0, 0);
      case DoExecute(id, outcome, t) => OutsideEvolves(s, id, false, outcome, t.now, 0);
      case DoDropToken(id) => OutsideEvolves(s, id, false, Skipped, 0, 0);
      case DoCancelRun(run) => OutsideEvolves(s, 0, false, Skipped, 0, run);
    } else {
      Untouched(s, s);
    }
  }

  lemma QuietEvolves(s: Kernel, s': Kernel)
    ensures EvolvesQuietly(s, s') ==> Evolves(s, s')
  {
  }

  /**
    In every reachable state, whatever the next call is: a result it records belongs
    to the invocation being finalized, which may still proceed and, if approval was
    asked, was approved earlier in the ledger.
   */
  lemma ResultsInTime(script: seq<CommitOutcome>, calls: seq<Call>, c: Call, k: nat)
    requires !c.DoRestart?
    ensures var s := Run(Init(script), calls);
            var records := Step(s, c).ledger.records;
            |s.ledger.records| <= k < |records| && IsResult(records[k].event) ==>
              && c.DoFinalize? && records[k].inv == c.id
              && MayProceed(s, c.id, c.t) && ApprovedIfAsked(s.ledger.records, c.id)
  {
    hide Inv, Run, Apply, MayProceed, ApprovedIfAsked, TablesEvolve;
    var s := Run(Init(script), calls);
    ReachableInv(script, calls);
    var records := Step(s, c).ledger.records;
    StepEvolves(s, c);
    if |s.ledger.records| <= k < |records| && IsResult(records[k].event) {
      assert records[|s.ledger.records|..][k - |s.ledger.records|] == records[k];
      assert c.DoFinalize? && Enabled(s, c);
      FinalizeIs(s, c);
      FinalizedInTime(s, c.id, c.t);
    }
  }

  lemma FinalizeIs(s: Kernel, c: Call)
    requires c.DoFinalize? && Enabled(s, c)
    ensures Step(s, c) == Finalize(s, c.id, c.t).0
  {
    hide Finalize;
  }

  /** In every reachable state, execution is dispatched only for approved work that may proceed. */
  lemma DispatchesInTime(script: seq<CommitOutcome>, calls: seq<Call>, id: InvId, t: Clock)
    requires var s := Run(Init(script), calls); id in s.tokens && s.tokens[id].Answered?
    ensures var s := Run(Init(script), calls);
            var (s', r) := Authorize(s, id, t);
            && (r == Dispatched <==> id in s'.tokens)
            && (r == Dispatched ==>
                  MayProceed(s, id, t) && ApprovedIfAsked(s'.ledger.records, id) && s.tokens[id].decision != Some(false))
            && r != Failure(HandlerNotBound)
  {
    hide Inv, Run, Authorize, MayProceed, ApprovedIfAsked;
    ReachableInv(script, calls);
    DispatchedInTime(Run(Init(script), calls), id, t);
    AuthorizeInv(Run(Init(script), calls), id, t);
  }

  // ----- What preparation fixed stays fixed -----

  lemma {:induction false} RunEvolves(s: Kernel, calls: seq<Call>)
    requires Inv(s) && forall c | c in calls :: !c.DoRestart?
    ensures Evolves(s, Run(s, calls))
  {
    hide Inv, Step, TablesEvolve;
    if calls == [] {
      Untouched(s, s);
      QuietEvolves(s, s);
    } else {
      var n := |calls| - 1;
      assert calls[n] in calls;
      RunEvolves(s, calls[..n]);
      RunInv(s, calls[..n]);
      StepEvolves(Run(s, calls[..n]), calls[n]);
      TablesTrans(s, Run(s, calls[..n]), Run(s, calls));
    }
  }

  /** A reservation reflects the moment of its preparation. */
  lemma PreparedUnder(s: Kernel, a: Attempt, direct: bool, t: Clock)
    requires Prepare(s, a, direct, t).1.WorkPrepared?
    ensures var (s', r) := Prepare(s, a, direct, t);
            && r.id in s'.pending && s.nextInv <= r.id
            && var p := s'.pending[r.id];
            && p.run == a.run && p.slot == a.slot && p.deadline == t.now + a.timeout
            && p.slot.cap.provider in s'.registry && p.hash == s'.registry[p.slot.cap.provider]
            && Check(s'.broker, t.wall, p.app, p.slot) in {Allowed(p.grant), ApprovalRequired(p.grant)}
  {
    hide Write, Check, Reap;
    ReapKeeps(s, t.now);
  }

  lemma ReapKeeps(s: Kernel, now: Time)
    ensures Reap(s, now).0.nextInv == s.nextInv
  {
  }

  /** As long as it is pending, it keeps that content, grant and deadline. */
  lemma HeldSincePreparation(s: Kernel, calls: seq<Call>, id: InvId)
    requires Inv(s) && (forall c | c in calls :: !c.DoRestart?) && id in s.pending && id in Run(s, calls).pending
    ensures SameReservation(s.pending[id], Run(s, calls).pending[id])
  {
    hide Inv, Run;
    RunEvolves(s, calls);
    EntryFacts(s, id);
  }
}
