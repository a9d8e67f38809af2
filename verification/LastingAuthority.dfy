/**
  Authority over whole histories: which operations change it, that grants and
  revocations are never lost, and what work a revocation stops for good.
 */
module LastingAuthority {
  import opened Basics
  import opened Domain
  import opened Ledger
  import opened Broker
  import opened KernelState
  import opened ActionPath
  import opened Lifecycle
  import opened KernelInvariant
  import opened LifecycleInvariant
  import opened Recovery
  import opened Runs
  import opened NoLateResult
  import opened Coverage
  import opened Attribution

  // ----- The action path touches neither apps nor grants -----

  predicate KeepsRegistry(s: Kernel, s': Kernel) {
    s'.registry == s.registry && (s'.disk.registry == s.disk.registry || s'.disk.registry == s.registry)
  }

  predicate KeepsBroker(s: Kernel, s': Kernel) {
    s'.broker == s.broker && (s'.disk.broker == s.disk.broker || s'.disk.broker == s.broker)
  }

  predicate KeepsAuthority(s: Kernel, s': Kernel) {
    KeepsRegistry(s, s') && KeepsBroker(s, s')
  }

  predicate KeepsArtifacts(s: Kernel, s': Kernel) {
    s'.artifacts == s.artifacts && (s'.disk.artifacts == s.disk.artifacts || s'.disk.artifacts == s.artifacts)
  }

  predicate KeepsHoldings(s: Kernel, s': Kernel) {
    KeepsAuthority(s, s') && KeepsArtifacts(s, s')
  }

  lemma WriteKeeps(s: Kernel, rs: seq<Record>)
    ensures KeepsHoldings(s, Write(s, rs).0) && KeepsHoldings(s, s)
  {
    hide Write;
  }

  /** What else moves does not matter. */
  lemma Aside(s: Kernel, s0: Kernel, s1: Kernel, s': Kernel)
    requires KeepsHoldings(s0, s1) && s0.registry == s.registry && s0.broker == s.broker
    requires s0.artifacts == s.artifacts && s0.disk == s.disk
    requires s'.registry == s1.registry && s'.broker == s1.broker && s'.artifacts == s1.artifacts && s'.disk == s1.disk
    ensures KeepsHoldings(s, s')
  {
  }

  lemma OpenKeeps(s: Kernel, a: Attempt, direct: bool, app: AppId, grant: Grant, t: Clock)
    requires Declares(s.registry, a.slot.cap)
    ensures KeepsHoldings(s, Open(s, a, direct, app, grant, t).0)
  {
    hide Write;
  }

  lemma ReapKeeps(s: Kernel, now: Time)
    ensures KeepsHoldings(s, Reap(s, now).0)
  {
    hide Write, Close;
  }

  lemma PrepareKeeps(s: Kernel, a: Attempt, direct: bool, t: Clock)
    ensures KeepsHoldings(s, Prepare(s, a, direct, t).0)
  {
    hide Write, Check, Reap, Open;
    ReapKeeps(s, t.now);
    var (s1, ok) := Reap(s, t.now);
    if ok && Inadmissible(s1, a).None? {
      var app := s1.ledger.runs[a.run].app;
      var check := Check(s1.broker, t.wall, app, a.slot);
      if !check.Denied? {
        OpenKeeps(s1, a, direct, app, check.grant, t);
      }
    }
  }

  lemma RunsKeep(s: Kernel, app: AppId, parent: Option<RunId>, run: RunId, how: RunEnd)
    ensures KeepsHoldings(s, StartRun(s, app, parent).0) && KeepsHoldings(s, EndRun(s, run, how).0)
  {
    hide Write, Close, KeepsHoldings;
    var s0, r, rs := s.(nextId := s.nextId + 1), Record(RunStarted(s.nextId, app, parent), 0),
                     Close(s, PendingOfRun(s, run)) + Ends([run], how);
    WriteKeeps(s, rs);
    WriteKeeps(s0, [r]);
    Aside(s, s0, Write(s0, [r]).0, Write(s0, [r]).0);
    Aside(s, s, if Active(s.ledger.runs, run) then Write(s, rs).0 else s, EndRun(s, run, how).0);
  }

  lemma SurfaceKeeps(s: Kernel, app: AppId, a: Attempt, t: Clock)
    ensures KeepsHoldings(s, SurfaceAction(s, app, a, t).0)
  {
    hide StartRun, Prepare, EndRun;
    var (s1, r) := StartRun(s, app, None);
    RunsKeep(s, app, None, 0, RunFailed);
    if r.RunOpened? {
      var own := app == a.slot.cap.provider;
      PrepareKeeps(s1, a.(run := r.run), own, t);
      RunsKeep(Prepare(s1, a.(run := r.run), own, t).0, app, None, r.run, RunFailed);
    }
  }

  lemma StaleKeeps(s: Kernel, id: InvId, v: Verdict)
    requires id in s.pending
    ensures KeepsHoldings(s, CloseStale(s, id, v).0)
  {
    hide Write, KeepsHoldings;
    var p := s.pending[id];
    var s0 := if v.Stopped? then s.(flags := s.flags + {id}) else s;
    var e := if v.NotGranted? then Refused(p.run, p.slot, v.reason) else Cancelled(p.run, p.slot);
    var s' := CloseStale(s, id, v).0;
    WriteKeeps(s0, [Record(e, id)]);
    Aside(s, s0, if v.RunGone? then s0 else Write(s0, [Record(e, id)]).0, s');
  }

  lemma DispatchKeeps(s: Kernel, id: InvId, t: Clock)
    requires id in s.pending
    ensures KeepsHoldings(s, Dispatch(s, id, t).0)
  {
    hide Write, Revalidate, CloseStale, KeepsHoldings;
    var p, v, s' := s.pending[id], Revalidate(s, id, t), Dispatch(s, id, t).0;
    if !v.Live? {
      StaleKeeps(s, id, v);
      Aside(s, s, CloseStale(s, id, v).0, s');
    } else {
      var rs := [Record(Invoked(p.run, p.Key()), id)];
      WriteKeeps(s, rs);
      Aside(s, s, if p.grant.condition == RequiresApproval then Write(s, rs).0 else s, s');
    }
  }

  lemma AuthorizeKeeps(s: Kernel, id: InvId, t: Clock)
    requires id in s.tokens && s.tokens[id].Answered?
    ensures KeepsHoldings(s, Authorize(s, id, t).0)
  {
    hide Write, Dispatch, KeepsHoldings;
    var s0, s' := s.(tokens := s.tokens - {id}), Authorize(s, id, t).0;
    WriteKeeps(s0, []);
    if id !in s.pending || s.pending[id].authorized {
      Aside(s, s0, s0, s');
    } else if s.tokens[id].decision.None? {
      DispatchKeeps(s0, id, t);
      Aside(s, s0, s', s');
    } else {
      var p, approved := s.pending[id], s.tokens[id].decision.value;
      var e := if approved then ApprovalGranted(p.run, p.Key()) else ApprovalDenied(p.run, p.Key());
      var (s1, ok) := Write(s0, [Record(e, id)]);
      WriteKeeps(s0, [Record(e, id)]);
      if ok && approved {
        DispatchKeeps(s1, id, t);
        KeepsTrans(s0, s1, s');
        Aside(s, s0, s', s');
      } else {
        Aside(s, s0, s1, s');
      }
    }
  }

  lemma KeepsTrans(s: Kernel, s1: Kernel, s2: Kernel)
    requires KeepsHoldings(s, s1) && KeepsHoldings(s1, s2)
    ensures KeepsHoldings(s, s2)
  {
  }

  lemma CompleteKeeps(s: Kernel, id: InvId, drafts: seq<Draft>)
    requires id in s.pending
    ensures KeepsAuthority(s, Complete(s, id, drafts).0)
  {
    hide ProductionRecords, StampedArtifacts, CommitCompletion;
  }

  /** Finalizing adds to the artifacts at most what a valid result of this work brings. */
  predicate AddsAtMost(s: Kernel, s': Kernel, id: InvId) {
    && KeepsAuthority(s, s')
    && (KeepsArtifacts(s, s')
        || (&& id in s.tokens && s.tokens[id].Executed? && id in s.pending && GoodResult(s.pending[id], s.tokens[id].execution)
            && var all := s.artifacts + StampedArtifacts(s, id, s.tokens[id].execution.drafts);
               (s'.artifacts == s.artifacts || s'.artifacts == all) && (s'.disk.artifacts == s.disk.artifacts || s'.disk.artifacts == all)))
  }

  lemma FinalizeKeeps(s: Kernel, id: InvId, t: Clock)
    requires id in s.tokens && s.tokens[id].Executed?
    ensures AddsAtMost(s, Finalize(s, id, t).0, id)
  {
    hide Write, Revalidate, CloseStale, Complete, Fail, DraftsOk, KeepsAuthority, KeepsArtifacts, StampedArtifacts;
    var s0, s', x := s.(tokens := s.tokens - {id}), Finalize(s, id, t).0, s.tokens[id].execution;
    WriteKeeps(s0, []);
    if id in s.pending && s.pending[id].authorized {
      StaleKeeps(s0, id, Revalidate(s0, id, t));
      StaleKeeps(s0, id, Stopped);
      FailKeeps(s0, id);
      if Revalidate(s0, id, t).Live? && x.Returned? {
        JudgedByReservation(s0, id, t, x.drafts);
        CompleteKeeps(s0, id, x.drafts);
        CompleteArtifacts(s0, id, x.drafts);
      }
    }
    TokensAside(s, s0, s', id);
  }

  lemma CompleteArtifacts(s: Kernel, id: InvId, drafts: seq<Draft>)
    requires id in s.pending
    ensures var s', all := Complete(s, id, drafts).0, s.artifacts + StampedArtifacts(s, id, drafts);
            (s'.artifacts == s.artifacts || s'.artifacts == all) && (s'.disk.artifacts == s.disk.artifacts || s'.disk.artifacts == all)
  {
    hide CommitCompletion, ProductionRecords, StampedArtifacts;
  }

  lemma TokensAside(s: Kernel, s0: Kernel, s': Kernel, id: InvId)
    requires s0 == s.(tokens := s0.tokens)
    ensures KeepsAuthority(s, s') <==> KeepsAuthority(s0, s')
    ensures KeepsArtifacts(s, s') <==> KeepsArtifacts(s0, s')
    ensures forall drafts :: id in s.pending ==> StampedArtifacts(s, id, drafts) == StampedArtifacts(s0, id, drafts)
  {
    forall drafts | id in s.pending ensures StampedArtifacts(s, id, drafts) == StampedArtifacts(s0, id, drafts) {
    }
  }

  lemma FailKeeps(s: Kernel, id: InvId)
    requires id in s.pending
    ensures KeepsHoldings(s, Fail(s, id).0)
  {
    hide Write;
  }

  lemma AbortKeeps(s: Kernel, id: InvId)
    requires id in s.tokens && (s.tokens[id].Prepared? || s.tokens[id].Authorized?)
    ensures KeepsHoldings(s, Abort(s, id).0)
  {
    hide Write;
  }

  lemma ActionKeeps(s: Kernel, c: Call)
    requires Enabled(s, c) && !c.DoRestart? && (!IsLifecycle(c) || c.DoEndRun?)
    ensures KeepsAuthority(s, Step(s, c))
    ensures !c.DoFinalize? ==> KeepsArtifacts(s, Step(s, c))
  {
    hide StartRun, EndRun, Prepare, SurfaceAction, Authorize, Finalize, Abort, Write, PendingOfRun;
    match c
    case DoStartRun(app, parent) => RunsKeep(s, app, parent, 0, RunFailed);
    case DoEndRun(run, how) => RunsKeep(s, 0, None, run, how);
    case DoPrepare(a, t) => PrepareKeeps(s, a, false, t);
    case DoSurfaceAction(app, a, t) => SurfaceKeeps(s, app, a, t);
    case DoAuthorize(id, t) => AuthorizeKeeps(s, id, t);
    case DoFinalize(id, t) => FinalizeKeeps(s, id, t);
    case DoAbort(id) => AbortKeeps(s, id);
    case _ =>
  }

  // ----- Grants and revocations are never lost -----

  predicate Extends(b: Broker, b': Broker) {
    b.grants <= b'.grants && b.revoked <= b'.revoked
  }

  predicate Grows(s: Kernel, s': Kernel) {
    && Extends(s.broker, s'.broker) && (s'.disk.broker == s.disk.broker || Extends(s.broker, s'.disk.broker))
    && KeepsArtifacts(s, s')
  }

  lemma {:induction false} ReconcileExtends(b: Broker, requests: seq<Authority>, q: Round, nextId: GrantId)
    ensures Extends(b, Reconcile(b, requests, q, nextId).broker)
    ensures Reconcile(b, requests, q, nextId).broker.revoked == b.revoked
  {
    if requests != [] {
      ReconcileExtends(b, requests[..|requests| - 1], q, nextId);
    }
  }

  lemma InstallGrows(s: Kernel, p: Plan, eventsApproved: bool, decisions: seq<bool>, t: Clock)
    ensures Grows(s, CommitInstall(s, p, eventsApproved, decisions, t).0)
  {
    hide Reconcile, AppendAll, Offer, StagedClose, ClosedWork, Forget, RequestsOk, HashesCurrent, AdoptStaged;
    var q := Round(p.manifest.app, p.origin, p.prompts, decisions, t.wall);
    ReconcileExtends(StagedBroker(s, p), Authorities(p.manifest.requests), q, s.nextId);
    var r := Reconcile(StagedBroker(s, p), Authorities(p.manifest.requests), q, s.nextId);
    AdoptGrows(s, p, r);
  }

  lemma AdoptGrows(s: Kernel, p: Plan, r: Reconciled)
    requires Extends(s.broker, r.broker)
    ensures Grows(s, AdoptStaged(s, p, r).0)
  {
    hide AppendAll, Offer, StagedClose, ClosedWork;
  }

  lemma GrantGrows(s: Kernel, h: AppId, q: Request, approved: bool, hh: Manifest, ph: Manifest, t: Clock)
    ensures Grows(s, CommitGrant(s, h, q, approved, hh, ph, t).0)
  {
    hide Offer, NewGrant;
  }

  lemma RevokeGrows(s: Kernel, ids: set<GrantId>)
    ensures Grows(s, RevokeAll(s, ids).0) && Grows(s, s)
  {
    hide Offer, PendingUnder;
  }

  lemma UpgradeKeeps(s: Kernel, m: Manifest, offered: set<CapName>)
    ensures KeepsBroker(s, Upgrade(s, m, offered).0) && KeepsArtifacts(s, Upgrade(s, m, offered).0)
  {
    hide Offer, RequestsOk;
  }

  lemma UninstallGrows(s: Kernel, app: AppId)
    ensures Grows(s, Uninstall(s, app).0)
  {
    hide Offer, AppendAll, Close, Ends, InOrder, ActiveRuns, PendingOfApp;
  }

  lemma LifecycleGrows(s: Kernel, c: Call)
    requires Enabled(s, c) && IsLifecycle(c) && !c.DoEndRun?
    ensures Grows(s, Step(s, c))
  {
    hide CommitInstall, CommitGrant, RevokeAll, Upgrade, Uninstall, GrantsOver, PlanOk, Grows;
    match c
    case DoGrant(h, q, approved, hh, ph, t) => GrantGrows(s, h, q, approved, hh, ph, t);
    case DoRevoke(id) => RevokeGrows(s, {id});
    case DoRevokeResource(r) => RevokeGrows(s, GrantsOver(s.broker, r));
    case DoInstall(p, events, decisions, t) => InstallGrows(s, p, events, decisions, t);
    case DoUpgrade(m, offered) =>
      UpgradeKeeps(s, m, offered);
      KeptGrows(s, Step(s, c));
    case DoUninstall(app) => UninstallGrows(s, app);
  }

  lemma KeptGrows(s: Kernel, s': Kernel)
    requires KeepsBroker(s, s') && KeepsArtifacts(s, s')
    ensures Grows(s, s')
  {
  }

  /** What memory and store have of the broker goes at least as far as `b`. */
  predicate Beyond(s: Kernel, b: Broker) {
    Extends(b, s.broker) && Extends(b, s.disk.broker)
  }

  lemma RestartBeyond(s: Kernel, script: seq<CommitOutcome>, b: Broker)
    requires Beyond(s, b)
    ensures Beyond(Restart(s, script).0, b)
  {
    hide Write, Bootable, ClosingEvents, AllActive;
  }

  lemma StepBeyond(s: Kernel, c: Call, b: Broker)
    requires Beyond(s, b)
    ensures Beyond(Step(s, c), b)
  {
    hide Apply, Restart;
    if Enabled(s, c) {
      if c.DoRestart? {
        RestartBeyond(s, c.script, b);
        RestartIs(s, c);
      } else if IsLifecycle(c) && !c.DoEndRun? {
        LifecycleGrows(s, c);
      } else {
        ActionKeeps(s, c);
      }
    }
  }

  lemma RestartIs(s: Kernel, c: Call)
    requires c.DoRestart?
    ensures Step(s, c) == Restart(s, c.script).0
  {
    hide Restart;
  }

  /** Whatever happens later, restarts and lost commits included, no grant and no revocation is lost. */
  lemma {:induction false} NothingIsLost(s: Kernel, calls: seq<Call>, b: Broker)
    requires Beyond(s, b)
    ensures Beyond(Run(s, calls), b)
  {
    hide Step, Beyond;
    if calls != [] {
      NothingIsLost(s, calls[..|calls| - 1], b);
      StepBeyond(Run(s, calls[..|calls| - 1]), calls[|calls| - 1], b);
    }
  }

  // ----- What each revocation revokes -----

  /** Exactly the chosen grants are revoked on top, and their pending work is asked to stop. */
  ghost predicate RevokesJust(s: Kernel, s': Kernel, chosen: Grant -> bool) {
    && s' == s.(broker := s'.broker, flags := s'.flags, disk := s'.disk, offered := s'.offered, script := s'.script)
    && s'.broker.grants == s.broker.grants
    && (forall g | g in s.broker.grants :: g.id in s'.broker.revoked <==> g.id in s.broker.revoked || chosen(g))
    && (forall i: InvId :: i in s'.flags <==> i in s.flags || (i in s.pending && chosen(s.pending[i].grant)))
  }

  lemma RevokeAllIsExact(s: Kernel, ids: set<GrantId>, chosen: Grant -> bool)
    requires Inv(s) && RevokeAll(s, ids).1 == Done
    requires forall g | g in s.broker.grants :: g.id in ids <==> chosen(g)
    ensures RevokesJust(s, RevokeAll(s, ids).0, chosen) && Beyond(RevokeAll(s, ids).0, RevokeAll(s, ids).0.broker)
  {
    hide Inv, Offer;
    forall i | i in s.pending ensures s.pending[i].grant in s.broker.grants {
      EntryFacts(s, i);
    }
  }

  /** Revoking over a resource takes exactly the grants that name it. */
  lemma ResourceRevocation(s: Kernel, r: ResourceId)
    requires Inv(s) && RevokeGrantsForResource(s, r).1 == Done
    ensures RevokesJust(s, RevokeGrantsForResource(s, r).0, (g: Grant) => Names(g.data, r))
    ensures (exists g :: g in s.broker.grants && Names(g.data, r)) ==>
              Beyond(RevokeGrantsForResource(s, r).0, RevokeGrantsForResource(s, r).0.broker)
  {
    hide Inv, RevokeAll, RevokesJust;
    var chosen := (g: Grant) => Names(g.data, r);
    forall g | g in s.broker.grants ensures g.id in GrantsOver(s.broker, r) <==> chosen(g) {
      OnlyItself(s, GrantsOver(s.broker, r), g, chosen);
    }
    if GrantsOver(s.broker, r) == {} {
      NoneChosen(s, chosen);
    } else {
      RevokeAllIsExact(s, GrantsOver(s.broker, r), chosen);
    }
  }

  lemma NoneChosen(s: Kernel, chosen: Grant -> bool)
    requires Inv(s) && forall g | g in s.broker.grants :: !chosen(g)
    ensures RevokesJust(s, s, chosen)
  {
    hide Inv;
    forall i | i in s.pending ensures !chosen(s.pending[i].grant) {
      EntryFacts(s, i);
    }
  }

  /** Ids are unique, so a set of ids of chosen grants holds no other grant's id. */
  lemma OnlyItself(s: Kernel, ids: set<GrantId>, g: Grant, chosen: Grant -> bool)
    requires Inv(s) && g in s.broker.grants
    requires forall h | h in s.broker.grants && chosen(h) :: h.id in ids
    requires forall i | i in ids :: exists h :: h in s.broker.grants && chosen(h) && h.id == i
    ensures g.id in ids <==> chosen(g)
  {
    hide Inv;
    if g.id in ids {
      var h :| h in s.broker.grants && chosen(h) && h.id == g.id;
      OneGrantPerId(s, g, h);
    }
  }

  lemma GrantRevocation(s: Kernel, id: GrantId)
    requires Inv(s) && RevokeGrant(s, id).1 == Done
    ensures RevokesJust(s, RevokeGrant(s, id).0, (g: Grant) => g.id == id)
    ensures Beyond(RevokeGrant(s, id).0, RevokeGrant(s, id).0.broker)
  {
    hide Inv, RevokeAll, RevokesJust;
    RevokeAllIsExact(s, {id}, (g: Grant) => g.id == id);
  }

  /** An app that is uninstalled takes with it exactly the grants it held and the grants over it. */
  lemma UninstallRevocation(s: Kernel, app: AppId)
    requires Inv(s) && Uninstall(s, app).1 == Done
    ensures var s' := Uninstall(s, app).0;
            && s'.broker.grants == s.broker.grants && Beyond(s', s'.broker)
            && s'.registry == s.registry - {app} && s'.handlers == s.handlers - {app}
            && (forall g | g in s.broker.grants ::
                  g.id in s'.broker.revoked <==> g.id in s.broker.revoked || g.holder == app || g.scope.owner == app)
            && (forall id ::
                  id in s'.pending <==> id in s.pending && s.pending[id].app != app && s.pending[id].slot.cap.provider != app)
            && (forall id: InvId ::
                  id in s'.flags <==> id in s.flags || (id in s.pending && id !in s'.pending))
  {
    hide Inv, Offer, AppendAll, Close, Ends, InOrder, ActiveRuns;
    forall g | g in s.broker.grants
      ensures g.id in RevokeApp(s.broker, app).revoked <==> g.id in s.broker.revoked || g.holder == app || g.scope.owner == app
    {
      OnlyThoseOfApp(s, app, g);
    }
  }

  lemma OnlyThoseOfApp(s: Kernel, app: AppId, g: Grant)
    requires Inv(s) && g in s.broker.grants
    ensures g.id in RevokeApp(s.broker, app).revoked <==> g.id in s.broker.revoked || g.holder == app || g.scope.owner == app
  {
    hide Inv;
    var chosen := (h: Grant) => h.holder == app || h.scope.owner == app;
    OnlyItself(s, set h | h in s.broker.grants && chosen(h) :: h.id, g, chosen);
  }

  // ----- What a revocation stops for good -----

  /** Work under a grant that is revoked in memory and store may never proceed again. */
  lemma StoppedForGood(s: Kernel, calls: seq<Call>, id: InvId, t: Clock)
    requires Beyond(s, s.broker) && id in Run(s, calls).pending && Run(s, calls).pending[id].grant.id in s.broker.revoked
    ensures !MayProceed(Run(s, calls), id, t)
  {
    hide Run;
    NothingIsLost(s, calls, s.broker);
  }

  /**
    Once the grants over a resource are revoked, whatever is called later, restarts included:
    no work under a grant issued by then that names the resource may proceed, unless its grant
    reaches all resources. Right after the revocation that is all pending work that names it.
   */
  lemma ResourceIsOutOfReach(script: seq<CommitOutcome>, calls: seq<Call>, r: ResourceId, later: seq<Call>, id: InvId, t: Clock)
    requires RevokeGrantsForResource(Run(Init(script), calls), r).1 == Done
    ensures var s1 := RevokeGrantsForResource(Run(Init(script), calls), r).0;
            var s := Run(s1, later);
            id in s.pending && Names(s.pending[id].slot.data, r) && MayProceed(s, id, t) ==>
              (later == [] || s.pending[id].grant in s1.broker.grants) ==> s.pending[id].grant.data.AllResources?
  {
    hide Inv, RevokeGrantsForResource, MayProceed;
    var s0 := Run(Init(script), calls);
    var s1 := RevokeGrantsForResource(s0, r).0;
    ReachableInv(script, calls);
    RevokeInv(s0, 0, r);
    ResourceRevocation(s0, r);
    RunInv(s1, later);
    var s := Run(s1, later);
    if id in s.pending && Names(s.pending[id].slot.data, r) && (later == [] || s.pending[id].grant in s1.broker.grants) {
      EntryFacts(s, id);
      EntitlesIsCovering(s.pending[id].grant, s.pending[id].app, s.pending[id].slot);
      if Names(s.pending[id].grant.data, r) {
        StoppedForGood(s1, later, id, t);
      }
    }
  }

  /** Once an app is uninstalled, no work under a grant it held or over it may proceed again, reinstalled or not. */
  lemma UninstalledAuthorityIsGone(script: seq<CommitOutcome>, calls: seq<Call>, app: AppId, later: seq<Call>, id: InvId, t: Clock)
    requires Uninstall(Run(Init(script), calls), app).1 == Done
    ensures var s1 := Uninstall(Run(Init(script), calls), app).0;
            var s := Run(s1, later);
            id in s.pending && s.pending[id].grant in s1.broker.grants && MayProceed(s, id, t) ==>
              && s.pending[id].grant.holder != app && s.pending[id].grant.scope.owner != app
  {
    hide Inv, Uninstall, MayProceed, Run;
    var s0 := Run(Init(script), calls);
    ReachableInv(script, calls);
    UninstallRevocation(s0, app);
    var s1 := Uninstall(s0, app).0;
    var s := Run(s1, later);
    if id in s.pending && s.pending[id].grant in s1.broker.grants
       && (s.pending[id].grant.holder == app || s.pending[id].grant.scope.owner == app) {
      StoppedForGood(s1, later, id, t);
    }
  }
}
