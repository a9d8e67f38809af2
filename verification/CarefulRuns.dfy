/**
  Recovery accepts what careful callers had the kernel write: over every history of
  careful calls, store answers and restarts, the stored state passes every check of
  a restart.
 */
module CarefulRuns {
  import opened Basics
  import opened Domain
  import opened Ledger
  import opened Broker
  import opened ActionLog
  import opened ReplayAgreement
  import opened DoubleInvocation
  import opened Settlement
  import opened KernelState
  import opened ActionPath
  import opened Lifecycle
  import opened Provenance
  import opened KernelInvariant
  import opened ActionInvariant
  import opened LifecycleInvariant
  import opened Recovery
  import opened Runs
  import opened RestartDiscipline
  import opened LastingAuthority

  // ----- The manifest pass -----

  /** The candidate offers every single capability that other installed manifests ask of it. */
  predicate CoversDependents(registry: Registry, m: Manifest) {
    forall a, q | a in registry && a != m.app && q in registry[a].requests ::
      q.authority.scope.owner == m.app && q.authority.scope.ExactCapability? ==> q.authority.scope.cap in m.caps
  }

  /** An install keeps the manifest pass exactly if it covers its dependents. */
  lemma InstallPassesIff(registry: Registry, m: Manifest)
    requires ManifestsOk(registry) && ManifestPass(registry) && RequestsOk(registry, m, true)
    ensures ManifestPass(registry[m.app := m]) <==> CoversDependents(registry, m)
  {
    var registry' := registry[m.app := m];
    assert RequestsOk(registry', m, true) by {
      forall q | q in m.requests ensures q.hasReason && TargetOk(registry', m, q.authority.scope, true) {
      }
    }
    if CoversDependents(registry, m) {
      forall a | a in registry' ensures RequestsOk(registry', registry'[a], true) {
        if a != m.app {
          forall q | q in registry[a].requests
            ensures q.hasReason && TargetOk(registry', registry[a], q.authority.scope, true)
          {
            assert RequestsOk(registry, registry[a], true);
          }
        }
      }
    } else {
      var a, q :| a in registry && a != m.app && q in registry[a].requests
        && q.authority.scope.owner == m.app && q.authority.scope.ExactCapability? && q.authority.scope.cap !in m.caps;
      assert !TargetOk(registry', registry'[a], q.authority.scope, true);
    }
  }

  lemma RemovalPasses(registry: Registry, app: AppId)
    requires ManifestsOk(registry) && ManifestPass(registry)
    ensures ManifestPass(registry - {app})
  {
    var registry' := registry - {app};
    forall a | a in registry' ensures RequestsOk(registry', registry'[a], true) {
      assert RequestsOk(registry, registry[a], true);
    }
  }

  lemma UpgradePasses(registry: Registry, m: Manifest)
    requires ManifestsOk(registry) && ManifestPass(registry)
    requires m.app in registry && registry[m.app].SameUpgradeContract(m)
    ensures ManifestPass(registry[m.app := m])
  {
    assert registry[m.app].requests == m.requests && registry[m.app].caps == m.caps;
    assert RequestsOk(registry, registry[m.app], true);
    forall a, q | a in registry && a != m.app && q in registry[a].requests
      ensures q.authority.scope.owner == m.app && q.authority.scope.ExactCapability? ==> q.authority.scope.cap in m.caps
    {
      assert RequestsOk(registry, registry[a], true);
    }
    InstallPassesIff(registry, m);
  }

  // ----- Careful calls -----

  predicate Careful(s: Kernel, c: Call) {
    match c
    case DoPrepare(a, t) => CarefulAttempt(Reap(s, t.now).0, a, false, t)
    case DoSurfaceAction(app, a, t) =>
      CarefulAttempt(Reap(StartRun(s, app, None).0, t.now).0, a.(run := s.nextId), app == a.slot.cap.provider, t)
    case DoInstall(p, _, _, _) => CoversDependents(s.registry, p.manifest)
    case _ => true
  }

  predicate CarefulRun(s: Kernel, calls: seq<Call>) {
    calls == [] ||
    (CarefulRun(s, calls[..|calls| - 1]) && Careful(Run(s, calls[..|calls| - 1]), calls[|calls| - 1]))
  }

  /** The store can be restarted from, and will be as long as the session can still write. */
  ghost predicate Restartable(s: Kernel) {
    && Replay(s.disk.records).Some? && ManifestPass(s.disk.registry)
    && (s.recovery || (Replays(s) && ManifestPass(s.registry)))
  }

  // ----- Surface actions -----

  lemma SurfaceReplays(s: Kernel, app: AppId, a: Attempt, t: Clock)
    requires Inv(s) && Replays(s)
    requires CarefulAttempt(Reap(StartRun(s, app, None).0, t.now).0, a.(run := s.nextId), app == a.slot.cap.provider, t)
    ensures Replays(SurfaceAction(s, app, a, t).0)
  {
    hide Inv, Replays, Prepare, EndRun, Reap, CarefulAttempt, Write;
    StartRunInv(s, app, None);
    StartRunReplays(s, app, None);
    var (s1, r) := StartRun(s, app, None);
    if r.RunOpened? {
      var own := app == a.slot.cap.provider;
      PrepareInv(s1, a.(run := r.run), own, t);
      PrepareReplays(s1, a.(run := r.run), own, t);
      var s2 := Prepare(s1, a.(run := r.run), own, t).0;
      EndRunReplays(s2, r.run, RunFailed);
    }
  }

  // ----- Lifecycle -----

  /** A staged candidate was offered: its closing records are adopted with it or not at all. */
  lemma StagedReplays(s: Kernel, rs: seq<Record>, s': Kernel)
    requires Replays(s) && Steady(s.ledger.records + rs) && FewerReservations(s.pending, s'.pending)
    requires s'.ledger.records == s.ledger.records || s'.ledger.records == s.ledger.records + rs
    requires s'.disk.records == s.disk.records || s'.disk.records == s.ledger.records + rs
    ensures Replays(s')
  {
    hide Steady, Replay, Track, Prompts;
    SteadyReplays(s.ledger.records + rs);
    PromptsKept(s, rs, s'.pending);
  }

  lemma KeptReplays(s: Kernel, s': Kernel)
    requires Replays(s) && s'.ledger == s.ledger && s'.pending == s.pending
    requires s'.disk.records == s.disk.records || s'.disk.records == s.ledger.records
    ensures Replays(s')
  {
    hide Steady, Replay, Track;
    SteadyReplays(s.ledger.records);
  }

  lemma GrantReplays(s: Kernel, h: AppId, q: Request, approved: bool, hh: Manifest, ph: Manifest, t: Clock)
    requires Replays(s)
    ensures var s' := CommitGrant(s, h, q, approved, hh, ph, t).0; Replays(s') && KeepsRegistry(s, s')
  {
    hide Replays, Offer, NewGrant;
    KeptReplays(s, CommitGrant(s, h, q, approved, hh, ph, t).0);
  }

  lemma RevokeReplays(s: Kernel, ids: set<GrantId>)
    requires Replays(s)
    ensures Replays(RevokeAll(s, ids).0) && KeepsRegistry(s, RevokeAll(s, ids).0)
  {
    hide Replays, Offer, PendingUnder;
    KeptReplays(s, RevokeAll(s, ids).0);
  }

  lemma UpgradeReplays(s: Kernel, m: Manifest, offered: set<CapName>)
    requires Inv(s) && Replays(s) && ManifestPass(s.registry)
    ensures var s' := Upgrade(s, m, offered).0;
            && Replays(s') && ManifestPass(s'.registry)
            && (s'.disk.registry == s.disk.registry || ManifestPass(s'.disk.registry))
  {
    hide Inv, Replays, Offer, RequestsOk, ManifestPass;
    KeptReplays(s, Upgrade(s, m, offered).0);
    RegistryOk(s);
    if m.app in s.registry && s.registry[m.app].SameUpgradeContract(m) {
      UpgradePasses(s.registry, m);
    }
  }

  lemma UninstallFacts(s: Kernel, app: AppId)
    ensures var s', rs := Uninstall(s, app).0, ClosingRecords(s, ClosingApp(s, app));
            && FewerReservations(s.pending, s'.pending)
            && (s'.ledger.records == s.ledger.records || s'.ledger.records == s.ledger.records + rs)
            && (s'.disk.records == s.disk.records || s'.disk.records == s.ledger.records + rs)
            && (s'.registry == s.registry || s'.registry == s.registry - {app})
            && (s'.disk.registry == s.disk.registry || s'.disk.registry == s.registry - {app})
  {
    hide Offer, AppendAll, Close, Ends, InOrder, ActiveRuns, PendingOfApp, RevokeApp;
  }

  lemma UninstallReplays(s: Kernel, app: AppId)
    requires Inv(s) && Replays(s) && ManifestPass(s.registry) && !s.recovery
    ensures var s' := Uninstall(s, app).0;
            && Replays(s') && ManifestPass(s'.registry)
            && (s'.disk.registry == s.disk.registry || ManifestPass(s'.disk.registry))
  {
    hide Inv, Replays, ManifestPass, Steady, Uninstall, ClosingApp, Close, Ends, FewerReservations;
    var c, s' := ClosingApp(s, app), Uninstall(s, app).0;
    RegistryOk(s);
    RemovalPasses(s.registry, app);
    ClosingAppOk(s, app);
    ClosingSteady(s, c.ids, c.runs, RunCancelled);
    UninstallFacts(s, app);
    StagedReplays(s, ClosingRecords(s, c), s');
  }

  lemma InstallClosesSteadily(s: Kernel, p: Plan)
    requires Inv(s) && Replays(s) && !s.recovery
    ensures Steady(s.ledger.records + StagedClose(s, p))
  {
    hide Inv, Replays, Close, Ends, InOrder, Steady;
    var c := ClosingApp(s, p.manifest.app);
    ClosingAppOk(s, p.manifest.app);
    ClosingSteady(s, c.ids, c.runs, RunCancelled);
    StillSteady(s);
    assert s.ledger.records + [] == s.ledger.records;
  }

  lemma AdoptStagedFacts(s: Kernel, p: Plan, r: Reconciled)
    ensures var s', rs, registry := AdoptStaged(s, p, r).0, StagedClose(s, p), s.registry[p.manifest.app := p.manifest];
            && FewerReservations(s.pending, s'.pending)
            && (s'.ledger.records == s.ledger.records || s'.ledger.records == s.ledger.records + rs)
            && (s'.disk.records == s.disk.records || s'.disk.records == s.ledger.records + rs)
            && (s'.registry == s.registry || s'.registry == registry)
            && (s'.disk.registry == s.disk.registry || s'.disk.registry == registry)
  {
    hide Offer, AppendAll, StagedClose, ClosedWork, Forget;
    var m, s0, rs := p.manifest, s.(nextId := r.nextId), StagedClose(s, p);
    var l := AppendAll(s.ledger, rs);
    if l.Some? {
      var registry := s.registry[m.app := m];
      var (s1, ok) := Offer(s0, Durable(registry, r.broker, l.value.records, s.artifacts));
      if ok {
        var s2 := s1.(registry := registry, broker := r.broker, ledger := l.value, handlers := s.handlers[m.app := m.caps.Keys]);
        ForgetFacts(s2, ClosedWork(s, p));
      }
    }
  }

  lemma ForgetFacts(s: Kernel, ids: set<InvId>)
    ensures var s' := Forget(s, ids);
            && FewerReservations(s.pending, s'.pending)
            && s'.ledger == s.ledger && s'.disk == s.disk && s'.registry == s.registry
  {
  }

  lemma AdoptFacts(s: Kernel, p: Plan, decisions: seq<bool>, t: Clock)
    ensures var s', rs, registry := Adopt(s, p, decisions, t).0, StagedClose(s, p), s.registry[p.manifest.app := p.manifest];
            && FewerReservations(s.pending, s'.pending)
            && (s'.ledger.records == s.ledger.records || s'.ledger.records == s.ledger.records + rs)
            && (s'.disk.records == s.disk.records || s'.disk.records == s.ledger.records + rs)
            && (s'.registry == s.registry || s'.registry == registry)
            && (s'.disk.registry == s.disk.registry || s'.disk.registry == registry)
  {
    hide AdoptStaged, StagedClose, StagedBroker, Reconcile;
    var q := Round(p.manifest.app, p.origin, p.prompts, decisions, t.wall);
    AdoptStagedFacts(s, p, Reconcile(StagedBroker(s, p), Authorities(p.manifest.requests), q, s.nextId));
  }

  lemma AdoptReplays(s: Kernel, p: Plan, decisions: seq<bool>, t: Clock)
    requires Inv(s) && Replays(s) && !s.recovery && ManifestPass(s.registry)
    requires CoversDependents(s.registry, p.manifest) && RequestsOk(s.registry, p.manifest, true)
    ensures var s' := Adopt(s, p, decisions, t).0;
            && Replays(s') && ManifestPass(s'.registry)
            && (s'.disk.registry == s.disk.registry || ManifestPass(s'.disk.registry))
  {
    hide Inv, Replays, ManifestPass, CoversDependents, RequestsOk, Steady, StagedClose, Adopt;
    RegistryOk(s);
    AdoptFacts(s, p, decisions, t);
    InstallPassesIff(s.registry, p.manifest);
    InstallClosesSteadily(s, p);
    StagedReplays(s, StagedClose(s, p), Adopt(s, p, decisions, t).0);
  }

  lemma StricterRequests(registry: Registry, m: Manifest)
    requires RequestsOk(registry, m, false)
    ensures RequestsOk(registry, m, true)
  {
  }

  lemma InstallReplays(s: Kernel, p: Plan, eventsApproved: bool, decisions: seq<bool>, t: Clock)
    requires Inv(s) && Replays(s) && !s.recovery && ManifestPass(s.registry) && CoversDependents(s.registry, p.manifest)
    ensures var s' := CommitInstall(s, p, eventsApproved, decisions, t).0;
            && Replays(s') && ManifestPass(s'.registry)
            && (s'.disk.registry == s.disk.registry || ManifestPass(s'.disk.registry))
  {
    hide Inv, Replays, ManifestPass, CoversDependents, RequestsOk, Adopt, HashesCurrent;
    if RequestsOk(s.registry, p.manifest, p.mode.Rebind?) {
      if !p.mode.Rebind? {
        StricterRequests(s.registry, p.manifest);
      }
      AdoptReplays(s, p, decisions, t);
    }
  }

  // ----- Restarting -----

  lemma SettledAgrees(records: seq<Record>)
    requires (forall r | r in records :: r.inv == 0) && Replay(records).Some? && AllSettled(Replay(records).value)
    ensures Steady(records) && Track(records, true) == Some(map[])
  {
    var m := Replay(records).value;
    UntaggedStrictly(records);
    forall run: RunId, ph: Phase, key: Key | ph != Closed ensures AgreeAt(m, map[], run, ph, key) {
      assert At(m, run) == NOTHING;
      assert Holders(map[], run, ph, key) == {};
    }
  }

  lemma {:induction false} UntaggedStrictly(records: seq<Record>)
    requires forall r | r in records :: r.inv == 0
    ensures Track(records, true) == Some(map[])
  {
    if records != [] {
      var n := |records| - 1;
      assert records[n] in records;
      UntaggedStrictly(records[..n]);
    }
  }

  /** What a boot that fails to close leaves in the store can still be booted. */
  lemma FailedBootStore(d: Durable, script: seq<CommitOutcome>, nextId: nat)
    requires Bootable(d) && Below(d, nextId)
    ensures var s := Boot(d, script, nextId).0; Replay(s.disk.records).Some? && s.disk.registry == d.registry
  {
    hide Restorable, Below, ManifestPass;
    UntagRuns(d.records);
    WellFormedWhenRestorable(d);
    RunsBelow(d, nextId);
    ClosingSettles(Untag(d.records), nextId);
  }

  lemma RestartReplays(s: Kernel, script: seq<CommitOutcome>)
    requires Inv(s) && Restartable(s)
    ensures Restartable(Restart(s, script).0)
  {
    hide Inv, Replays, Boot, Restorable, Below, ManifestPass, Replay;
    DiskRestorable(s);
    var (s1, ok) := Boot(s.disk, script, s.nextId);
    FailedBootStore(s.disk, script, s.nextId);
    if ok {
      RestartClosesEverything(s.disk, script, s.nextId);
      UntaggedAfterBoot(s.disk, script, s.nextId);
      SettledAgrees(s1.ledger.records);
      BootedReplays(s1);
    }
  }

  lemma BootedReplays(s: Kernel)
    requires Steady(s.ledger.records) && Track(s.ledger.records, true) == Some(map[]) && s.disk == Projection(s) && Inv(s)
    ensures Replays(s)
  {
    hide StateOk, HandlersOk, PendingOk, DiskOk, Steady, Track, Replay;
    SteadyReplays(s.ledger.records);
    assert s.pending == map[] by {
      forall id ensures id !in s.pending {
        if id in s.pending {
          EntryFacts(s, id);
          UntaggedBookAgain(s);
        }
      }
    }
  }

  lemma UntaggedBookAgain(s: Kernel)
    requires Track(s.ledger.records, true) == Some(map[])
    ensures Track(s.ledger.records, false) == Some(map[])
  {
    StrictIsPermissive(s.ledger.records);
  }

  // ----- Every careful history -----

  lemma ActionReplays(s: Kernel, c: Call)
    requires Inv(s) && Replays(s) && !s.recovery && Enabled(s, c) && Careful(s, c) && !c.DoRestart?
    requires !IsLifecycle(c) || c.DoEndRun?
    ensures Replays(Step(s, c)) && KeepsRegistry(s, Step(s, c))
  {
    hide Inv, Replays, StartRun, EndRun, Prepare, SurfaceAction, Authorize, Finalize, Abort, Reap, CarefulAttempt, Write,
         PendingOfRun;
    ActionKeeps(s, c);
    match c
    case DoStartRun(app, parent) => StartRunReplays(s, app, parent);
    case DoEndRun(run, how) => EndRunReplays(s, run, how);
    case DoPrepare(a, t) => PrepareReplays(s, a, false, t);
    case DoSurfaceAction(app, a, t) => SurfaceReplays(s, app, a, t);
    case DoAuthorize(id, t) => AuthorizeReplays(s, id, t);
    case DoFinalize(id, t) => FinalizeReplays(s, id, t);
    case DoAbort(id) => AbortReplays(s, id);
    case _ =>
      Undisturbed(s, Step(s, c));
  }

  /** The registry passes, and so does what the store holds. */
  predicate Passes(s: Kernel, s': Kernel) {
    ManifestPass(s'.registry) && (s'.disk.registry == s.disk.registry || ManifestPass(s'.disk.registry))
  }

  lemma LifecycleReplays(s: Kernel, c: Call)
    requires Inv(s) && Replays(s) && !s.recovery && ManifestPass(s.registry) && Enabled(s, c) && Careful(s, c)
    requires IsLifecycle(c) && !c.DoEndRun?
    ensures Replays(Step(s, c)) && Passes(s, Step(s, c))
  {
    hide Inv, Replays, ManifestPass, CommitGrant, RevokeAll, GrantsOver, CommitInstall, Upgrade, Uninstall, PlanOk,
         CoversDependents;
    match c
    case DoGrant(h, q, approved, hh, ph, t) => GrantReplays(s, h, q, approved, hh, ph, t);
    case DoRevoke(id) => RevokeReplays(s, {id});
    case DoRevokeResource(r) => RevokeReplays(s, GrantsOver(s.broker, r));
    case DoInstall(p, events, decisions, t) => InstallReplays(s, p, events, decisions, t);
    case DoUpgrade(m, offered) => UpgradeReplays(s, m, offered);
    case DoUninstall(app) => UninstallReplays(s, app);
  }

  lemma CarefulStep(s: Kernel, c: Call)
    requires Inv(s) && Restartable(s) && Careful(s, c)
    ensures Restartable(Step(s, c))
  {
    hide Inv, Replays, Apply, ManifestPass, Careful, Replay;
    if !Enabled(s, c) {
    } else if c.DoRestart? {
      RestartReplays(s, c.script);
      RestartIs(s, c);
    } else if s.recovery {
      RecoveryStep(s, c);
    } else {
      StepInv(s, c);
      if IsLifecycle(c) && !c.DoEndRun? {
        LifecycleReplays(s, c);
        RestartableAgain(s, Step(s, c));
      } else {
        ActionReplays(s, c);
        RestartableAgain(s, Step(s, c));
      }
    }
  }

  lemma RestartableAgain(s: Kernel, s': Kernel)
    requires Restartable(s) && !s.recovery && Replays(s') && (Passes(s, s') || KeepsRegistry(s, s'))
    ensures Restartable(s')
  {
    hide Steady, Replay, ManifestPass;
  }

  lemma InitRestartable(script: seq<CommitOutcome>)
    ensures Restartable(Init(script))
  {
    SettledAgrees([]);
  }

  lemma {:induction false} CarefulRunRestartable(script: seq<CommitOutcome>, calls: seq<Call>)
    requires CarefulRun(Init(script), calls)
    ensures Restartable(Run(Init(script), calls))
  {
    hide Inv, Restartable, Step, Careful, Init;
    if calls == [] {
      InitRestartable(script);
    } else {
      var n := |calls| - 1;
      CarefulRunRestartable(script, calls[..n]);
      ReachableInv(script, calls[..n]);
      CarefulStep(Run(Init(script), calls[..n]), calls[n]);
    }
  }

  /** Recovery accepts what the kernel wrote for careful callers, whatever the store did with it. */
  lemma CarefulAlwaysBoots(script: seq<CommitOutcome>, calls: seq<Call>)
    requires CarefulRun(Init(script), calls)
    ensures Bootable(Run(Init(script), calls).disk)
  {
    hide Inv, Run, CarefulRun, Replays, ManifestPass, Restorable, Replay;
    CarefulRunRestartable(script, calls);
    ReachableInv(script, calls);
    DiskRestorable(Run(Init(script), calls));
  }
}
