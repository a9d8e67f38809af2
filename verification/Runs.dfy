/**
  Whole histories: any sequence of kernel calls, host events and restarts, against
  a store that answers every commit as it pleases.
 */
module Runs {
  import opened Basics
  import opened Domain
  import opened Ledger
  import opened Broker
  import opened ActionLog
  import opened KernelState
  import opened ActionPath
  import opened Lifecycle
  import opened Provenance
  import opened KernelInvariant
  import opened ActionInvariant
  import opened CompletionInvariant
  import opened LifecycleInvariant
  import opened Recovery

  datatype Call =
    | DoStartRun(app: AppId, parent: Option<RunId>)
    | DoEndRun(run: RunId, how: RunEnd)
    | DoPrepare(attempt: Attempt, t: Clock)
    | DoSurfaceAction(app: AppId, attempt: Attempt, t: Clock)
    | DoAwaitApproval(id: InvId, answer: bool)
    | DoAuthorize(id: InvId, t: Clock)
    | DoExecute(id: InvId, outcome: Execution, t: Clock)
    | DoFinalize(id: InvId, t: Clock)
    | DoAbort(id: InvId)
    | DoDropToken(id: InvId)
    | DoCancelRun(run: RunId)
    | DoGrant(holder: AppId, request: Request, approved: bool, holderHash: Manifest, providerHash: Manifest, t: Clock)
    | DoRevoke(grant: GrantId)
    | DoRevokeResource(resource: ResourceId)
    | DoInstall(plan: Plan, eventsApproved: bool, decisions: seq<bool>, t: Clock)
    | DoUpgrade(manifest: Manifest, offered: set<CapName>)
    | DoUninstall(app: AppId)
    | DoRestart(script: seq<CommitOutcome>)

  /** Tokens are linear and install plans come from preparing an install; nothing else is asked of a caller. */
  predicate Enabled(s: Kernel, c: Call) {
    match c
    case DoAwaitApproval(id, _) => id in s.tokens && s.tokens[id].Prepared?
    case DoAuthorize(id, _) => id in s.tokens && s.tokens[id].Answered?
    case DoExecute(id, _, _) => id in s.tokens && s.tokens[id].Authorized?
    case DoFinalize(id, _) => id in s.tokens && s.tokens[id].Executed?
    case DoAbort(id) => id in s.tokens && (s.tokens[id].Prepared? || s.tokens[id].Authorized?)
    case DoDropToken(id) => id in s.tokens
    case DoInstall(p, _, _, _) => PlanOk(p)
    case _ => true
  }

  /** A kernel that did not come up serves nothing: what is left is a session that can no longer write. */
  function Restart(s: Kernel, script: seq<CommitOutcome>): (Kernel, Reply) {
    var (s1, ok) := Boot(s.disk, script, s.nextId);
    if ok then (s1, Done) else (s1.(recovery := true), Failure(Durability))
  }

  function Apply(s: Kernel, c: Call): (Kernel, Reply)
    requires Enabled(s, c)
  {
    match c
    case DoStartRun(app, parent) => StartRun(s, app, parent)
    case DoEndRun(run, how) => EndRun(s, run, how)
    case DoPrepare(a, t) => Prepare(s, a, false, t)
    case DoSurfaceAction(app, a, t) => SurfaceAction(s, app, a, t)
    case DoAwaitApproval(id, answer) => (AwaitApproval(s, id, answer), Done)
    case DoAuthorize(id, t) => Authorize(s, id, t)
    case DoExecute(id, outcome, t) => (Execute(s, id, outcome, t.now), Done)
    case DoFinalize(id, t) => Finalize(s, id, t)
    case DoAbort(id) => Abort(s, id)
    case DoDropToken(id) => (DropToken(s, id), Done)
    case DoCancelRun(run) => (CancelRun(s, run), Done)
    case DoGrant(h, q, approved, hh, ph, t) => CommitGrant(s, h, q, approved, hh, ph, t)
    case DoRevoke(id) => RevokeGrant(s, id)
    case DoRevokeResource(r) => RevokeGrantsForResource(s, r)
    case DoInstall(p, events, decisions, t) => CommitInstall(s, p, events, decisions, t)
    case DoUpgrade(m, offered) => Upgrade(s, m, offered)
    case DoUninstall(app) => Uninstall(s, app)
    case DoRestart(script) => Restart(s, script)
  }

  /** A call no caller can make is skipped. */
  function Step(s: Kernel, c: Call): Kernel {
    if Enabled(s, c) then Apply(s, c).0 else s
  }

  function Run(s: Kernel, calls: seq<Call>): Kernel {
    if calls == [] then s else Step(Run(s, calls[..|calls| - 1]), calls[|calls| - 1])
  }

  // ----- The invariant, over every history -----

  lemma RestartInv(s: Kernel, script: seq<CommitOutcome>)
    requires Inv(s)
    ensures Inv(Restart(s, script).0)
  {
    hide Inv, Boot;
    DiskRestorable(s);
    BootInv(s.disk, script, s.nextId);
    RaiseRecovery(Boot(s.disk, script, s.nextId).0);
  }

  lemma DiskRestorable(s: Kernel)
    requires Inv(s)
    ensures Restorable(s.disk) && Below(s.disk, s.nextId)
  {
  }

  lemma RaiseRecovery(s: Kernel)
    requires Inv(s)
    ensures Inv(s.(recovery := true))
  {
  }

  lemma ActionStepInv(s: Kernel, c: Call)
    requires Inv(s) && Enabled(s, c)
    requires c.DoAwaitApproval? || c.DoAuthorize? || c.DoExecute? || c.DoFinalize? || c.DoAbort? || c.DoDropToken?
          || c.DoCancelRun?
    ensures Inv(Step(s, c))
  {
    hide Inv, Authorize, Finalize, Abort, AwaitApproval, Execute, DropToken, CancelRun;
    match c
    case DoAwaitApproval(id, answer) => OutsideInv(s, id, answer, Skipped, 0, 0);
    case DoAuthorize(id, t) => AuthorizeInv(s, id, t);
    case DoExecute(id, outcome, t) => OutsideInv(s, id, false, outcome, t.now, 0);
    case DoFinalize(id, t) => FinalizeInv(s, id, t);
    case DoAbort(id) => AbortInv(s, id);
    case DoDropToken(id) => OutsideInv(s, id, false, Skipped, 0, 0);
    case DoCancelRun(run) => OutsideInv(s, 0, false, Skipped, 0, run);
  }

  lemma StepInv(s: Kernel, c: Call)
    requires Inv(s)
    ensures Inv(Step(s, c))
  {
    hide Inv, StartRun, EndRun, Prepare, SurfaceAction, CommitGrant, RevokeGrant, RevokeGrantsForResource,
         CommitInstall, Upgrade, Uninstall, Restart, PlanOk;
    if Enabled(s, c) {
      match c
      case DoStartRun(app, parent) => StartRunInv(s, app, parent);
      case DoEndRun(run, how) => EndRunInv(s, run, how);
      case DoPrepare(a, t) => PrepareInv(s, a, false, t);
      case DoSurfaceAction(app, a, t) => SurfaceActionInv(s, app, a, t);
      case DoGrant(h, q, approved, hh, ph, t) => CommitGrantInv(s, h, q, approved, hh, ph, t);
      case DoRevoke(id) => RevokeInv(s, id, 0);
      case DoRevokeResource(r) => RevokeInv(s, 0, r);
      case DoInstall(p, events, decisions, t) => CommitInstallInv(s, p, events, decisions, t);
      case DoUpgrade(m, offered) => UpgradeInv(s, m, offered);
      case DoUninstall(app) => UninstallInv(s, app);
      case DoRestart(script) => RestartInv(s, script);
      case _ => ActionStepInv(s, c);
    }
  }

  lemma {:induction false} RunInv(s: Kernel, calls: seq<Call>)
    requires Inv(s)
    ensures Inv(Run(s, calls))
  {
    hide Inv, Step;
    if calls != [] {
      RunInv(s, calls[..|calls| - 1]);
      StepInv(Run(s, calls[..|calls| - 1]), calls[|calls| - 1]);
    }
  }

  lemma ReachableInv(script: seq<CommitOutcome>, calls: seq<Call>)
    ensures Inv(Run(Init(script), calls))
  {
    hide Inv, Run;
    InitInv(script);
    RunInv(Init(script), calls);
  }

  // ----- Conservation of invocations -----

  /**
    Whatever happened, an invocation has at most one terminal record, and none while
    it is pending. Unless recovery is required it is either still pending or has
    exactly one.
   */
  lemma Conservation(script: seq<CommitOutcome>, calls: seq<Call>, id: InvId)
    ensures var s := Run(Init(script), calls);
            1 <= id < s.nextInv ==>
              && Terminals(s.ledger.records, id) <= 1
              && (id in s.pending ==> Terminals(s.ledger.records, id) == 0)
              && (!s.recovery && id !in s.pending ==> Terminals(s.ledger.records, id) == 1)
    ensures var s := Run(Init(script), calls); id in s.pending ==> 1 <= id < s.nextInv
  {
    hide Inv, Run;
    var s := Run(Init(script), calls);
    ReachableInv(script, calls);
    if id in s.pending {
      EntryFacts(s, id);
    }
    if 1 <= id < s.nextInv {
      BookFacts(s, id);
      TerminalsMatchPhase(s.ledger.records, id);
    }
  }

  lemma BookFacts(s: Kernel, id: InvId)
    requires Inv(s) && 1 <= id < s.nextInv
    ensures Track(s.ledger.records, false).Some? && id in Track(s.ledger.records, false).value
    ensures !s.recovery && IsOpen(Track(s.ledger.records, false).value, id) ==> id in s.pending
  {
    hide StateOk, HandlersOk, PendingOk, DiskOk;
  }

  // ----- Memory refines the store -----

  /** The store holds what memory shows, or recovery is required and it holds the last candidate offered. */
  lemma DurableRefinement(script: seq<CommitOutcome>, calls: seq<Call>)
    ensures var s := Run(Init(script), calls);
            && (s.disk == Projection(s) || (s.recovery && s.disk == s.offered))
            && Restorable(s.disk)
  {
    hide MemoryOk, Run, Restorable;
    ReachableInv(script, calls);
  }

  /** In a ledger that is well-formed and follows the protocol, open work belongs to active runs. */
  lemma {:induction false} OpenWorkIsActive(records: seq<Record>, id: InvId)
    requires WellFormed(records) && Track(records, false).Some? && IsOpen(Track(records, false).value, id)
    ensures Active(RunsOf(records), Track(records, false).value[id].run)
  {
    var n := |records| - 1;
    var b := Track(records[..n], false).value;
    if IsOpen(b, id) {
      OpenWorkIsActive(records[..n], id);
    }
  }

  /**
    Whatever the store holds, during recovery too: an invocation has at most one terminal
    record in it, and no run that ended in it has open work.
   */
  lemma StoredWorkIsSettled(script: seq<CommitOutcome>, calls: seq<Call>, id: InvId)
    ensures var d := Run(Init(script), calls).disk;
            && Track(d.records, false).Some?
            && (id != 0 ==> Terminals(d.records, id) <= 1)
            && (IsOpen(Track(d.records, false).value, id) ==> Active(RunsOf(d.records), Track(d.records, false).value[id].run))
  {
    hide MemoryOk, Run, RunsOf;
    ReachableInv(script, calls);
    var d := Run(Init(script), calls).disk;
    if id != 0 {
      TerminalsMatchPhase(d.records, id);
    }
    if IsOpen(Track(d.records, false).value, id) {
      WellFormedWhenRestorable(d);
      OpenWorkIsActive(d.records, id);
    }
  }

  /** The durable part of memory. */
  predicate SameDurable(s: Kernel, s': Kernel) {
    Projection(s) == Projection(s') && s.disk == s'.disk
  }

  /** Recovery stays required and nothing durable moves. */
  predicate Frozen(s: Kernel, s': Kernel) {
    s'.recovery && SameDurable(s, s')
  }

  lemma FrozenPrepare(s: Kernel, a: Attempt, direct: bool, t: Clock)
    requires s.recovery
    ensures Frozen(s, Prepare(s, a, direct, t).0)
  {
    hide Write, Close, Check, Inadmissible;
    var s1 := Reap(s, t.now).0;
    assert s1 == s;
  }

  lemma FrozenRuns(s: Kernel, app: AppId, parent: Option<RunId>, a: Attempt, t: Clock, run: RunId, how: RunEnd)
    requires s.recovery
    ensures Frozen(s, StartRun(s, app, parent).0) && !StartRun(s, app, None).1.RunOpened?
    ensures Frozen(s, SurfaceAction(s, app, a, t).0)
    ensures Frozen(s, EndRun(s, run, how).0)
  {
    hide Write, Close, Prepare;
  }

  lemma FrozenStale(s: Kernel, id: InvId, v: Verdict)
    requires s.recovery && id in s.pending
    ensures Frozen(s, CloseStale(s, id, v).0)
  {
    hide Write;
  }

  lemma FrozenDispatch(s: Kernel, id: InvId, t: Clock)
    requires s.recovery && id in s.pending
    ensures Frozen(s, Dispatch(s, id, t).0)
  {
    hide Write, Revalidate, CloseStale;
    FrozenStale(s, id, Revalidate(s, id, t));
  }

  lemma FrozenAuthorize(s: Kernel, id: InvId, t: Clock)
    requires s.recovery && id in s.tokens && s.tokens[id].Answered?
    ensures Frozen(s, Authorize(s, id, t).0)
  {
    hide Write, Dispatch;
    if id in s.pending {
      FrozenDispatch(s.(tokens := s.tokens - {id}), id, t);
    }
  }

  lemma FrozenComplete(s: Kernel, id: InvId, drafts: seq<Draft>)
    requires s.recovery && id in s.pending
    ensures Frozen(s, Complete(s, id, drafts).0)
  {
    hide ProductionRecords, StampedArtifacts, AppendAll;
  }

  lemma FrozenFinalize(s: Kernel, id: InvId, t: Clock)
    requires s.recovery && id in s.tokens && s.tokens[id].Executed?
    ensures Frozen(s, Finalize(s, id, t).0)
  {
    hide Write, Revalidate, CloseStale, Complete, DraftsOk;
    var s0 := s.(tokens := s.tokens - {id});
    if id in s.pending {
      FrozenStale(s0, id, Revalidate(s0, id, t));
      FrozenStale(s0, id, Stopped);
      if s.tokens[id].execution.Returned? {
        FrozenComplete(s0, id, s.tokens[id].execution.drafts);
      }
    }
  }

  lemma FrozenInstall(s: Kernel, p: Plan, eventsApproved: bool, decisions: seq<bool>, t: Clock)
    requires s.recovery
    ensures Frozen(s, CommitInstall(s, p, eventsApproved, decisions, t).0)
  {
    hide Reconcile, StagedClose, StagedBroker, ClosedWork, AppendAll, RequestsOk, HashesCurrent;
  }

  lemma FrozenLifecycle(s: Kernel, c: Call)
    requires s.recovery && (c.DoGrant? || c.DoRevoke? || c.DoRevokeResource? || c.DoUpgrade? || c.DoUninstall?)
    ensures Frozen(s, Step(s, c))
  {
    hide AppendAll, Close, Ends, RequestsOk, GrantsOver, PendingUnder;
  }

  lemma RecoveryStep(s: Kernel, c: Call)
    requires s.recovery && !c.DoRestart?
    ensures Frozen(s, Step(s, c))
  {
    hide StartRun, EndRun, Prepare, SurfaceAction, Authorize, Finalize, CommitInstall, CommitGrant, RevokeGrant,
         RevokeGrantsForResource, Upgrade, Uninstall, Write, PlanOk;
    if Enabled(s, c) {
      match c
      case DoStartRun(app, parent) => FrozenRuns(s, app, parent, Attempt(0, Slot(CapRef(0, 0), NoData), false, false, 0), Clock(0, 0), 0, RunFailed);
      case DoEndRun(run, how) => FrozenRuns(s, 0, None, Attempt(0, Slot(CapRef(0, 0), NoData), false, false, 0), Clock(0, 0), run, how);
      case DoPrepare(a, t) => FrozenPrepare(s, a, false, t);
      case DoSurfaceAction(app, a, t) => FrozenRuns(s, app, None, a, t, 0, RunFailed);
      case DoAuthorize(id, t) => FrozenAuthorize(s, id, t);
      case DoFinalize(id, t) => FrozenFinalize(s, id, t);
      case DoInstall(p, events, decisions, t) => FrozenInstall(s, p, events, decisions, t);
      case DoAwaitApproval(_, _) =>
      case DoExecute(_, _, _) =>
      case DoAbort(_) =>
      case DoDropToken(_) =>
      case DoCancelRun(_) =>
      case _ => FrozenLifecycle(s, c);
    }
  }

  /** Once recovery is required, nothing durable changes again before a restart. */
  lemma {:induction false} RecoveryIsForever(s: Kernel, calls: seq<Call>)
    requires s.recovery && forall c | c in calls :: !c.DoRestart?
    ensures Frozen(s, Run(s, calls))
  {
    hide Step;
    if calls != [] {
      var n := |calls| - 1;
      assert calls[n] in calls;
      RecoveryIsForever(s, calls[..n]);
      RecoveryStep(Run(s, calls[..n]), calls[n]);
    }
  }

  predicate IsLifecycle(c: Call) {
    c.DoGrant? || c.DoRevoke? || c.DoRevokeResource? || c.DoInstall? || c.DoUpgrade? || c.DoUninstall? || c.DoEndRun?
  }

  /** Everything a caller can observe, apart from the tokens it holds itself. */
  predicate SameView(s: Kernel, s': Kernel) {
    && Projection(s') == Projection(s) && s'.ledger == s.ledger
    && s'.handlers == s.handlers && s'.pending == s.pending && s'.flags == s.flags
  }

  lemma FailedInstall(s: Kernel, p: Plan, eventsApproved: bool, decisions: seq<bool>, t: Clock)
    requires CommitInstall(s, p, eventsApproved, decisions, t).1.Failure?
    ensures SameView(s, CommitInstall(s, p, eventsApproved, decisions, t).0)
  {
    hide Reconcile, StagedBroker, RequestsOk, HashesCurrent, AdoptStaged;
    var q := Round(p.manifest.app, p.origin, p.prompts, decisions, t.wall);
    FailedAdopt(s, p, Reconcile(StagedBroker(s, p), Authorities(p.manifest.requests), q, s.nextId));
  }

  lemma FailedAdopt(s: Kernel, p: Plan, r: Reconciled)
    ensures AdoptStaged(s, p, r).1.Failure? ==> SameView(s, AdoptStaged(s, p, r).0)
  {
    hide Offer, AppendAll, StagedClose, ClosedWork, Forget;
  }

  lemma FailedEndRun(s: Kernel, run: RunId, how: RunEnd)
    requires EndRun(s, run, how).1.Failure?
    ensures SameView(s, EndRun(s, run, how).0)
  {
    hide Write, Close;
  }

  lemma FailedGrant(s: Kernel, h: AppId, q: Request, approved: bool, hh: Manifest, ph: Manifest, t: Clock)
    requires CommitGrant(s, h, q, approved, hh, ph, t).1.Failure?
    ensures SameView(s, CommitGrant(s, h, q, approved, hh, ph, t).0)
  {
    hide Offer, NewGrant;
  }

  lemma FailedRevoke(s: Kernel, ids: set<GrantId>)
    ensures RevokeAll(s, ids).1.Failure? ==> SameView(s, RevokeAll(s, ids).0)
    ensures SameView(s, s)
  {
    hide Offer, PendingUnder;
  }

  lemma FailedUpgrade(s: Kernel, m: Manifest, offered: set<CapName>)
    requires Upgrade(s, m, offered).1.Failure?
    ensures SameView(s, Upgrade(s, m, offered).0)
  {
    hide Offer, RequestsOk;
  }

  lemma FailedUninstall(s: Kernel, app: AppId)
    requires Uninstall(s, app).1.Failure?
    ensures SameView(s, Uninstall(s, app).0)
  {
    hide Offer, AppendAll, Close, Ends, Forget;
  }

  /** A lifecycle step that fails leaves memory as it was. */
  lemma FailedStepKeepsMemory(s: Kernel, c: Call)
    requires Enabled(s, c) && IsLifecycle(c) && Apply(s, c).1.Failure?
    ensures SameView(s, Apply(s, c).0)
  {
    hide CommitInstall, EndRun, CommitGrant, RevokeAll, Upgrade, Uninstall, GrantsOver, PlanOk, SameView;
    match c
    case DoInstall(p, events, decisions, t) => FailedInstall(s, p, events, decisions, t);
    case DoEndRun(run, how) => FailedEndRun(s, run, how);
    case DoGrant(h, q, approved, hh, ph, t) => FailedGrant(s, h, q, approved, hh, ph, t);
    case DoRevoke(id) => FailedRevoke(s, {id});
    case DoRevokeResource(r) => FailedRevoke(s, GrantsOver(s.broker, r));
    case DoUpgrade(m, offered) => FailedUpgrade(s, m, offered);
    case DoUninstall(app) => FailedUninstall(s, app);
  }
}
