/**
  What the kernel's errors mean: against a store that commits, an error is answered
  only if the condition it names holds.
 */
module Errors {
  import opened Basics
  import opened Domain
  import opened Ledger
  import opened Broker
  import opened KernelState
  import opened ActionPath
  import opened Lifecycle
  import opened KernelInvariant
  import opened ActionInvariant
  import opened LifecycleInvariant
  import opened Runs
  import opened Reservations
  import opened Coverage
  import opened Attribution
  import opened Outcomes
  import opened Admission
  import opened Installing

  /** What is wrong with an attempt, by the error that says so; `app` acts and `own` says in its own surface. */
  predicate AttemptFault(s: Kernel, a: Attempt, app: AppId, own: bool, e: Error) {
    var cap := a.slot.cap;
    match e
    case InvalidScope => a.slot.data.AllResources? || !WellScoped(a.slot.data)
    case UnknownApp => app !in s.registry || cap.provider !in s.registry
    case UndeclaredCapability => cap.provider in s.registry && cap.name !in s.registry[cap.provider].caps
    case InvalidInput => !a.inputOk
    case HandlerNotBound => cap.provider !in s.handlers || cap.name !in s.handlers[cap.provider]
    case NoticeFailed => !own && !a.noticeOk
    case _ => false
  }

  predicate RunFault(s: Kernel, run: RunId, e: Error) {
    match e
    case UnknownRun => run !in s.ledger.runs
    case RunAlreadyEnded => run in s.ledger.runs && !s.ledger.runs[run].active
    case _ => false
  }

  /** The work a token stands for is not at the point the call needs. */
  predicate Missed(s: Kernel, id: InvId, dispatched: bool) {
    id !in s.pending || s.pending[id].authorized != dispatched
  }

  predicate GrantFault(s: Kernel, holder: AppId, q: Request, holderHash: Manifest, providerHash: Manifest, e: Error) {
    var scope := q.authority.scope;
    match e
    case UnknownApp => holder !in s.registry || scope.owner !in s.registry
    case Stale =>
      || (holder in s.registry && s.registry[holder] != holderHash)
      || (scope.owner in s.registry && s.registry[scope.owner] != providerHash)
    case InvalidRequest => !q.hasReason || !WellScoped(q.authority.data)
    case UndeclaredCapability => scope.ExactCapability? && scope.owner in s.registry && scope.cap !in s.registry[scope.owner].caps
    case _ => false
  }

  predicate InstallFault(s: Kernel, p: Plan, eventsApproved: bool, decisions: seq<bool>, e: Error) {
    match e
    case UnknownApp => !p.mode.Fresh? && p.manifest.app !in s.registry
    case Stale => !Fits(s, p) || |decisions| != |p.prompts|
    case InvalidManifest => !SoundAlone(p.manifest)
    case InvalidRequest => !SoundAmong(s.registry, p.manifest, p.mode.Rebind?)
    case SubscriptionDenied => !p.mode.Rebind? && !eventsApproved
    case _ => false
  }

  predicate UpgradeFault(s: Kernel, m: Manifest, offered: set<CapName>, e: Error) {
    match e
    case BindingMismatch => offered != m.caps.Keys
    case InvalidRequest => !SoundAmong(s.registry, m, true)
    case UnknownApp => m.app !in s.registry
    case InvalidManifest => !SoundAlone(m)
    case ContractChanged => m.app in s.registry && s.registry[m.app] != m.(version := s.registry[m.app].version)
    case _ => false
  }

  predicate Fault(s: Kernel, c: Call, e: Error) {
    match c
    case DoStartRun(app, parent) =>
      || (e == UnknownApp && app !in s.registry)
      || (parent.Some? && RunFault(s, parent.value, e))
      || (e == AttributionMismatch && parent.Some? && Active(s.ledger.runs, parent.value) && s.ledger.runs[parent.value].app != app)
    case DoEndRun(run, _) => RunFault(s, run, e)
    case DoPrepare(a, _) =>
      || RunFault(s, a.run, e)
      || (a.run in s.ledger.runs && AttemptFault(s, a, s.ledger.runs[a.run].app, false, e))
      || (e == InvalidScope && (a.slot.data.AllResources? || !WellScoped(a.slot.data)))
    case DoSurfaceAction(app, a, _) => AttemptFault(s, a, app, app == a.slot.cap.provider, e)
    case DoAuthorize(id, _) => e == Consumed && Missed(s, id, false)
    case DoFinalize(id, _) => e == Consumed && Missed(s, id, true)
    case DoAbort(id) => e == Consumed && id !in s.pending
    case DoGrant(h, q, _, hh, ph, _) => GrantFault(s, h, q, hh, ph, e)
    case DoRevoke(id) => e == UnknownGrant && forall g | g in s.broker.grants :: g.id != id
    case DoInstall(p, events, decisions, _) => InstallFault(s, p, events, decisions, e)
    case DoUpgrade(m, offered) => UpgradeFault(s, m, offered, e)
    case DoUninstall(app) => e == UnknownApp && app !in s.registry
    case _ => false
  }

  lemma PrepareErrors(s: Kernel, a: Attempt, direct: bool, t: Clock)
    requires Inv(s) && Willing(s) && Prepare(s, a, direct, t).1.Failure?
    ensures var e := Prepare(s, a, direct, t).1.error;
            || RunFault(s, a.run, e)
            || (a.run in s.ledger.runs && AttemptFault(s, a, s.ledger.runs[a.run].app, direct, e))
            || (e == InvalidScope && (a.slot.data.AllResources? || !WellScoped(a.slot.data)))
  {
    hide Inv, Write, Reap, Check;
    ReapOutcome(s, t.now);
    var s1 := Reap(s, t.now).0;
    AdmissibleIff(s1, a);
    if Inadmissible(s1, a).None? {
      var check := Check(s1.broker, t.wall, s1.ledger.runs[a.run].app, a.slot);
      if check.Denied? {
        Commits(s1, [Record(Refused(a.run, a.slot, check.reason), 0)]);
      } else {
        OpenOutcome(s1, a, direct, check.grant, t);
      }
    }
  }

  lemma SurfaceErrors(s: Kernel, app: AppId, a: Attempt, t: Clock)
    requires Inv(s) && Willing(s) && SurfaceAction(s, app, a, t).1.Failure?
    ensures AttemptFault(s, a, app, app == a.slot.cap.provider, SurfaceAction(s, app, a, t).1.error)
  {
    hide Inv, StartRun, Prepare, EndRun;
    StartRunOutcome(s, app, None);
    StartErrors(s, app, None);
    if app in s.registry {
      StartRunInv(s, app, None);
      SurfaceEnters(s, app, a, t);
      StartWilling(s, app);
      PrepareErrors(StartRun(s, app, None).0, a.(run := s.nextId), app == a.slot.cap.provider, t);
      StartKeepsHandlers(s, app);
    }
  }

  lemma StartKeepsHandlers(s: Kernel, app: AppId)
    ensures StartRun(s, app, None).0.handlers == s.handlers && StartRun(s, app, None).0.registry == s.registry
  {
    hide Write;
  }

  lemma StartErrors(s: Kernel, app: AppId, parent: Option<RunId>)
    requires Inv(s) && Willing(s)
    ensures var r := StartRun(s, app, parent).1;
            r.Failure? ==>
              || (r.error == UnknownApp && app !in s.registry)
              || (parent.Some? && RunFault(s, parent.value, r.error))
              || (r.error == AttributionMismatch && parent.Some? && Active(s.ledger.runs, parent.value)
                  && s.ledger.runs[parent.value].app != app)
  {
    hide Inv, Write;
    UnusedRun(s);
    StartsRun(s.(nextId := s.nextId + 1), Record(RunStarted(s.nextId, app, parent), 0));
  }

  lemma TokenErrors(s: Kernel, c: Call)
    requires Inv(s) && Willing(s) && Enabled(s, c) && (c.DoAuthorize? || c.DoFinalize? || c.DoAbort?) && Apply(s, c).1.Failure?
    ensures Apply(s, c).1.error == Consumed
    ensures if c.DoAbort? then c.id !in s.pending else Missed(s, c.id, c.DoFinalize?)
  {
    hide Inv, Write, Dispatch, CloseStale, Complete, Fail, Revalidate, DraftsOk, Proceeds, EndsWith, DispatchedWith, CompletedWith;
    match c
    case DoAbort(id) => AbortOutcome(s, id);
    case DoFinalize(id, t) =>
      if !Missed(s, id, true) {
        FinalizeOutcome(s, id, t);
      }
    case DoAuthorize(id, t) =>
      if !Missed(s, id, false) {
        if s.tokens[id].decision == Some(false) {
          DeniedReply(s, id, t);
        } else {
          AuthorizeOutcome(s, id, t);
        }
      }
  }

  lemma DeniedReply(s: Kernel, id: InvId, t: Clock)
    requires Inv(s) && Willing(s) && id in s.tokens && s.tokens[id] == Answered(Some(false))
    requires id in s.pending && !s.pending[id].authorized
    ensures Authorize(s, id, t).1 == Refusal(ByUser)
  {
    hide Inv, Write;
    EntryFacts(s, id);
    Commits(s.(tokens := s.tokens - {id}), [Record(ApprovalDenied(s.pending[id].run, s.pending[id].Key()), id)]);
  }

  lemma InstallErrors(s: Kernel, p: Plan, eventsApproved: bool, decisions: seq<bool>, t: Clock)
    requires Inv(s) && Willing(s) && PlanOk(p) && CommitInstall(s, p, eventsApproved, decisions, t).1.Failure?
    ensures InstallFault(s, p, eventsApproved, decisions, CommitInstall(s, p, eventsApproved, decisions, t).1.error)
  {
    hide Inv, Adopt, RequestsOk, HashesCurrent, ProvidersAsRecorded, SoundAmong, SoundAlone;
    RegistryOk(s);
    SoundnessIff(s.registry, p.manifest, p.mode.Rebind?, p.hashes);
    if Fits(s, p) && (!p.mode.Rebind? ==> SoundAlone(p.manifest)) {
      InstalledIsSound(s, p);
      AdoptOutcome(s, p, decisions, t);
    }
  }

  lemma InstalledIsSound(s: Kernel, p: Plan)
    requires Inv(s) && Fits(s, p) && (!p.mode.Rebind? ==> SoundAlone(p.manifest))
    ensures p.manifest.LocallyValid()
  {
    hide Inv;
    RegistryOk(s);
    SoundnessIff(s.registry, p.manifest, false, map[]);
  }

  lemma GrantErrors(s: Kernel, h: AppId, q: Request, approved: bool, hh: Manifest, ph: Manifest, t: Clock)
    requires Willing(s) && CommitGrant(s, h, q, approved, hh, ph, t).1.Failure?
    ensures GrantFault(s, h, q, hh, ph, CommitGrant(s, h, q, approved, hh, ph, t).1.error)
  {
    hide NewGrant;
  }

  lemma RevokeErrors(s: Kernel, id: GrantId, r: ResourceId)
    requires Willing(s)
    ensures RevokeGrant(s, id).1.Failure? ==>
              RevokeGrant(s, id).1.error == UnknownGrant && forall g | g in s.broker.grants :: g.id != id
    ensures !RevokeGrantsForResource(s, r).1.Failure?
  {
    hide PendingUnder, GrantsOver;
  }

  lemma UpgradeErrors(s: Kernel, m: Manifest, offered: set<CapName>)
    requires Willing(s) && Upgrade(s, m, offered).1.Failure?
    ensures UpgradeFault(s, m, offered, Upgrade(s, m, offered).1.error)
  {
    hide RequestsOk, SoundAmong, SoundAlone;
    SoundnessIff(s.registry, m, true, map[]);
  }

  lemma UninstallError(s: Kernel, app: AppId)
    requires app !in s.registry
    ensures Uninstall(s, app).1 == Failure(UnknownApp)
  {
  }

  /** Against a store that commits, every error the kernel answers is warranted by the state it was asked in. */
  lemma ErrorsAreWarranted(s: Kernel, c: Call)
    requires Inv(s) && Willing(s) && Enabled(s, c) && !c.DoRestart? && Apply(s, c).1.Failure?
    ensures Fault(s, c, Apply(s, c).1.error)
  {
    hide Inv, StartRun, EndRun, Prepare, SurfaceAction, Authorize, Finalize, Abort, CommitGrant, RevokeGrant, RevokeGrantsForResource,
         CommitInstall, Upgrade, Uninstall, PlanOk, PendingOfRun;
    match c
    case DoStartRun(app, parent) => StartErrors(s, app, parent);
    case DoEndRun(run, how) => EndErrors(s, run, how);
    case DoPrepare(a, t) => PrepareErrors(s, a, false, t);
    case DoSurfaceAction(app, a, t) => SurfaceErrors(s, app, a, t);
    case DoInstall(p, events, decisions, t) => InstallErrors(s, p, events, decisions, t);
    case DoAuthorize(_, _) => TokenErrors(s, c);
    case DoFinalize(_, _) => TokenErrors(s, c);
    case DoAbort(_) => TokenErrors(s, c);
    case DoAwaitApproval(_, _) =>
    case DoExecute(_, _, _) =>
    case DoDropToken(_) =>
    case DoCancelRun(_) =>
    case DoGrant(h, q, approved, hh, ph, t) => GrantErrors(s, h, q, approved, hh, ph, t);
    case DoRevoke(id) => RevokeErrors(s, id, 0);
    case DoRevokeResource(r) => RevokeErrors(s, 0, r);
    case DoUpgrade(m, offered) => UpgradeErrors(s, m, offered);
    case DoUninstall(app) =>
      UninstallOutcome(s, app);
      if app !in s.registry {
        UninstallError(s, app);
      }
  }

  lemma EndErrors(s: Kernel, run: RunId, how: RunEnd)
    requires Inv(s) && Willing(s) && EndRun(s, run, how).1.Failure?
    ensures RunFault(s, run, EndRun(s, run, how).1.error)
  {
    hide Inv, Write, Close;
    EndRunOutcome(s, run, how);
  }
}
