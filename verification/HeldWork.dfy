/**
  Pending work is cancelled or its caller still holds the token for its next step. No
  call of a session loses a token otherwise, and no id is flagged before it is used.
 */
module HeldWork {
  import opened Basics
  import opened Domain
  import opened Ledger
  import opened Broker
  import opened KernelState
  import opened ActionPath
  import opened Lifecycle
  import opened KernelInvariant
  import opened ActionInvariant
  import opened Recovery
  import opened Runs

  /** The token is there, and knows whether the work was dispatched and how long it may take. */
  predicate HeldBy(p: Pending, tokens: map<InvId, Token>, id: InvId) {
    && id in tokens && (p.authorized <==> tokens[id].Authorized? || tokens[id].Executed?)
    && (tokens[id].Authorized? ==> tokens[id].deadline == p.deadline)
  }

  predicate Held(s: Kernel) {
    && (forall id | id in s.flags :: id < s.nextInv)
    && (forall id | id in s.pending && id !in s.flags :: HeldBy(s.pending[id], s.tokens, id))
  }

  /** Work may go and be cancelled; tokens stay. */
  predicate Fewer(s: Kernel, s': Kernel) {
    && s'.tokens == s.tokens && s'.nextInv == s.nextInv && s.flags <= s'.flags
    && (forall id | id in s'.flags :: id in s.flags || id in s.pending)
    && (forall id | id in s'.pending :: id in s.pending && s'.pending[id] == s.pending[id])
  }

  lemma IdsInUse(s: Kernel, id: InvId)
    requires Inv(s) && (id in s.pending || id in s.tokens)
    ensures id < s.nextInv
  {
    hide StateOk, HandlersOk, PendingOk, DiskOk;
    if id in s.pending {
      EntryFacts(s, id);
    }
  }

  lemma FewerHeld(s: Kernel, s': Kernel)
    requires Inv(s) && Held(s) && Fewer(s, s')
    ensures Held(s')
  {
    hide Inv;
    forall id | id in s'.flags ensures id < s'.nextInv {
      if id !in s.flags {
        IdsInUse(s, id);
      }
    }
  }

  lemma FewerTrans(s: Kernel, s1: Kernel, s2: Kernel)
    requires Fewer(s, s1) && Fewer(s1, s2)
    ensures Fewer(s, s2)
  {
  }

  // ----- Calls that leave tokens alone -----

  /** Writing records touches none of the tables. */
  lemma WriteFewer(s: Kernel, rs: seq<Record>)
    ensures Fewer(s, Write(s, rs).0)
  {
    hide Write;
  }

  lemma StartFewer(s: Kernel, app: AppId, parent: Option<RunId>)
    ensures Fewer(s, StartRun(s, app, parent).0)
  {
    hide Write;
  }

  lemma EndFewer(s: Kernel, run: RunId, how: RunEnd)
    ensures Fewer(s, EndRun(s, run, how).0)
  {
    hide Write, Close, Forget, Fewer;
    var ids := PendingOfRun(s, run);
    var rs := Close(s, ids) + Ends([run], how);
    WriteFewer(s, rs);
    ForgetFewer(Write(s, rs).0, ids);
    FewerTrans(s, Write(s, rs).0, Forget(Write(s, rs).0, ids));
    Same(s);
  }

  lemma Same(s: Kernel)
    ensures Fewer(s, s)
  {
  }

  lemma ReapFewer(s: Kernel, now: Time)
    ensures Fewer(s, Reap(s, now).0)
  {
    hide Write, Close;
  }

  lemma CancelFewer(s: Kernel, run: RunId)
    ensures Fewer(s, CancelRun(s, run))
  {
  }

  lemma GrantsFewer(s: Kernel, h: AppId, q: Request, approved: bool, hh: Manifest, ph: Manifest, t: Clock, ids: set<GrantId>)
    ensures Fewer(s, CommitGrant(s, h, q, approved, hh, ph, t).0) && Fewer(s, RevokeAll(s, ids).0) && Fewer(s, s)
  {
    hide Offer, NewGrant;
  }

  lemma ForgetFewer(s: Kernel, ids: set<InvId>)
    ensures Fewer(s, Forget(s, ids))
  {
  }

  lemma AdoptStagedFewer(s: Kernel, p: Plan, r: Reconciled)
    ensures Fewer(s, AdoptStaged(s, p, r).0)
  {
    hide Offer, AppendAll, StagedClose, ClosedWork, Forget;
    var m, l := p.manifest, AppendAll(s.ledger, StagedClose(s, p));
    if l.Some? {
      var registry := s.registry[m.app := m];
      var (s1, ok) := Offer(s.(nextId := r.nextId), Durable(registry, r.broker, l.value.records, s.artifacts));
      if ok {
        var s2 := s1.(registry := registry, broker := r.broker, ledger := l.value, handlers := s.handlers[m.app := m.caps.Keys]);
        ForgetFewer(s2, ClosedWork(s, p));
      }
    }
  }

  lemma InstallFewer(s: Kernel, p: Plan, eventsApproved: bool, decisions: seq<bool>, t: Clock)
    ensures Fewer(s, CommitInstall(s, p, eventsApproved, decisions, t).0)
  {
    hide AdoptStaged, StagedBroker, Reconcile, RequestsOk, HashesCurrent;
    var q := Round(p.manifest.app, p.origin, p.prompts, decisions, t.wall);
    AdoptStagedFewer(s, p, Reconcile(StagedBroker(s, p), Authorities(p.manifest.requests), q, s.nextId));
  }

  lemma UpgradeFewer(s: Kernel, m: Manifest, offered: set<CapName>)
    ensures Fewer(s, Upgrade(s, m, offered).0)
  {
    hide Offer, RequestsOk;
  }

  lemma UninstallFewer(s: Kernel, app: AppId)
    ensures Fewer(s, Uninstall(s, app).0)
  {
    hide Offer, AppendAll, Close, Ends, InOrder, ActiveRuns, RevokeApp, PendingOfApp, Forget, Fewer;
    var ids := PendingOfApp(s, app);
    var l := AppendAll(s.ledger, Close(s, ids) + Ends(InOrder(ActiveRuns(s.ledger.runs, app), s.nextId), RunCancelled));
    Same(s);
    if l.Some? {
      var registry, broker := s.registry - {app}, RevokeApp(s.broker, app);
      var (s1, ok) := Offer(s, Durable(registry, broker, l.value.records, s.artifacts));
      var s2 := s1.(registry := registry, broker := broker, ledger := l.value, handlers := s.handlers - {app});
      OfferFewer(s, s1);
      OfferFewer(s, s2);
      ForgetFewer(s2, ids);
      FewerTrans(s, s2, Forget(s2, ids));
    }
  }

  lemma OfferFewer(s: Kernel, s': Kernel)
    requires s'.tokens == s.tokens && s'.nextInv == s.nextInv && s'.flags == s.flags && s'.pending == s.pending
    ensures Fewer(s, s')
  {
  }

  // ----- Calls that move one token -----

  /** Only this invocation moves: it goes, is cancelled, or is held again. */
  predicate Moves(s: Kernel, s': Kernel, id: InvId) {
    && s'.nextInv == s.nextInv && s.flags <= s'.flags && s'.flags <= s.flags + {id}
    && (forall x | x in s'.pending && x != id :: x in s.pending && s'.pending[x] == s.pending[x])
    && (forall x | x in s.tokens && x != id :: x in s'.tokens && s'.tokens[x] == s.tokens[x])
    && (forall x | x in s'.tokens && x != id :: x in s.tokens)
    && (id in s'.pending && id !in s'.flags ==> HeldBy(s'.pending[id], s'.tokens, id))
  }

  lemma MovesHeld(s: Kernel, s': Kernel, id: InvId)
    requires Inv(s) && Held(s) && id in s.tokens && Moves(s, s', id)
    ensures Held(s')
  {
    hide Inv;
    IdsInUse(s, id);
  }

  /** The three things that may become of the invocation whose token is used. */
  predicate Closed(s: Kernel, s': Kernel, id: InvId) {
    && s'.nextInv == s.nextInv && s.flags <= s'.flags && s'.flags <= s.flags + {id}
    && s'.pending == s.pending - {id} && s'.tokens - {id} == s.tokens - {id}
  }

  predicate Stuck(s: Kernel, s': Kernel, id: InvId) {
    && s'.nextInv == s.nextInv && s'.flags == s.flags + {id}
    && s'.pending == s.pending && s'.tokens - {id} == s.tokens - {id}
  }

  predicate Advanced(s: Kernel, s': Kernel, id: InvId) {
    && s'.nextInv == s.nextInv && s'.flags == s.flags && id in s.pending && id in s'.pending
    && s'.pending == s.pending[id := s'.pending[id]] && s'.tokens - {id} == s.tokens - {id}
    && HeldBy(s'.pending[id], s'.tokens, id)
  }

  lemma ThreeWays(s: Kernel, s': Kernel, id: InvId)
    requires Closed(s, s', id) || Stuck(s, s', id) || Advanced(s, s', id)
    ensures Moves(s, s', id)
  {
    forall x | x != id ensures (x in s.tokens <==> x in s'.tokens) && (x in s.tokens ==> s'.tokens[x] == s.tokens[x]) {
      assert x in s.tokens <==> x in s.tokens - {id};
      assert x in s'.tokens <==> x in s'.tokens - {id};
    }
  }

  lemma StaleCloses(s: Kernel, id: InvId, v: Verdict)
    requires id in s.pending
    ensures Closed(s, CloseStale(s, id, v).0, id) && CloseStale(s, id, v).0.tokens == s.tokens
  {
    hide Write;
  }

  lemma SpentClosed(s: Kernel, s1: Kernel, id: InvId)
    requires Closed(s, s1, id)
    ensures Closed(s, SpendToken(s1, id), id)
  {
  }

  /** Live work: recorded as begun where its grant asks, then advanced. */
  lemma LiveWays(s: Kernel, id: InvId, t: Clock)
    requires id in s.pending && Revalidate(s, id, t).Live?
    ensures var s' := Dispatch(s, id, t).0; Closed(s, s', id) || Stuck(s, s', id) || Advanced(s, s', id)
  {
    hide Write, Revalidate, Closed;
    var p, s' := s.pending[id], Dispatch(s, id, t).0;
    var (s1, ok) :=
      if p.grant.condition == RequiresApproval then Write(s, [Record(Invoked(p.run, p.Key()), id)]) else (s, true);
    if !ok {
      ConsumeCloses(s, s1, id, false);
      SpentClosed(s, Consume(s1, id, false), id);
    } else if Bound(s1.handlers, p.slot.cap) {
      assert s'.pending[id].authorized && s'.tokens[id].Authorized?;
      assert s'.tokens - {id} == s.tokens - {id};
    }
  }

  lemma DispatchWays(s: Kernel, id: InvId, t: Clock)
    requires id in s.pending
    ensures var s' := Dispatch(s, id, t).0; Closed(s, s', id) || Stuck(s, s', id) || Advanced(s, s', id)
  {
    hide Write, Revalidate, CloseStale, Closed, Stuck, Advanced;
    var v := Revalidate(s, id, t);
    if v.Live? {
      LiveWays(s, id, t);
    } else {
      StaleCloses(s, id, v);
      SpentClosed(s, CloseStale(s, id, v).0, id);
    }
  }

  lemma ConsumeCloses(s: Kernel, s1: Kernel, id: InvId, ok: bool)
    requires s1.nextInv == s.nextInv && s1.flags == s.flags && s1.pending == s.pending && s1.tokens == s.tokens
    ensures Closed(s, Consume(s1, id, ok), id)
  {
  }

  lemma FromFewerTokens(s: Kernel, s1: Kernel, s': Kernel, id: InvId)
    requires s1.nextInv == s.nextInv && s1.flags == s.flags && s1.pending == s.pending && s1.tokens == s.tokens - {id}
    requires Closed(s1, s', id) || Stuck(s1, s', id) || Advanced(s1, s', id)
    ensures Closed(s, s', id) || Stuck(s, s', id) || Advanced(s, s', id)
  {
    assert s1.tokens - {id} == s.tokens - {id};
  }

  lemma AuthorizeMoves(s: Kernel, id: InvId, t: Clock)
    requires id in s.tokens && s.tokens[id].Answered?
    ensures Moves(s, Authorize(s, id, t).0, id)
  {
    hide Write, Dispatch, Closed, Stuck, Advanced, Moves;
    var s0, s', decision := s.(tokens := s.tokens - {id}), Authorize(s, id, t).0, s.tokens[id].decision;
    if id !in s.pending || s.pending[id].authorized {
      SpendIsStuck(s0, id);
      FromFewerTokens(s, s0, s', id);
    } else if decision.None? {
      DispatchWays(s0, id, t);
      FromFewerTokens(s, s0, s', id);
    } else {
      var p := s.pending[id];
      var e := if decision.value then ApprovalGranted(p.run, p.Key()) else ApprovalDenied(p.run, p.Key());
      var (s1, ok) := Write(s0, [Record(e, id)]);
      ConsumeCloses(s1, s1, id, ok);
      SpentClosed(s1, Consume(s1, id, ok), id);
      DispatchWays(s1, id, t);
      FromFewerTokens(s, s1, s', id);
    }
    ThreeWays(s, s', id);
  }

  lemma SpendIsStuck(s: Kernel, id: InvId)
    ensures Stuck(s, SpendToken(s, id), id)
  {
  }

  lemma FailCloses(s: Kernel, id: InvId)
    requires id in s.pending
    ensures Closed(s, Fail(s, id).0, id)
  {
    hide Write;
  }

  lemma CompleteCloses(s: Kernel, id: InvId, drafts: seq<Draft>)
    requires id in s.pending
    ensures Closed(s, Complete(s, id, drafts).0, id)
  {
    hide ProductionRecords, StampedArtifacts;
    var p := s.pending[id];
    CommitCloses(s, id, ProductionRecords(s, id, drafts) + [Record(Completed(p.run, p.Key()), id)],
                 StampedArtifacts(s, id, drafts), seq(|drafts|, i => s.nextId + i));
  }

  lemma CommitCloses(s: Kernel, id: InvId, rs: seq<Record>, produced: map<ArtifactId, Artifact>, ids: seq<ArtifactId>)
    ensures Closed(s, CommitCompletion(s, id, rs, produced, ids).0, id)
  {
    hide CommitCompletion;
  }

  lemma FinalizeMoves(s: Kernel, id: InvId, t: Clock)
    requires Held(s) && id in s.tokens && s.tokens[id].Executed?
    ensures Moves(s, Finalize(s, id, t).0, id)
  {
    hide Revalidate, CloseStale, Complete, Fail, DraftsOk, Closed, Stuck, Advanced;
    var s0, s', x := s.(tokens := s.tokens - {id}), Finalize(s, id, t).0, s.tokens[id].execution;
    if id in s.pending && s.pending[id].authorized {
      StaleCloses(s0, id, Revalidate(s0, id, t));
      StaleCloses(s0, id, Stopped);
      CompleteCloses(s0, id, if x.Returned? then x.drafts else []);
      FailCloses(s0, id);
      FromFewerTokens(s, s0, s', id);
      ThreeWays(s, s', id);
    }
  }

  lemma AbortMoves(s: Kernel, id: InvId)
    requires id in s.tokens && (s.tokens[id].Prepared? || s.tokens[id].Authorized?)
    ensures Moves(s, Abort(s, id).0, id)
  {
    hide Write, Moves;
    assert Closed(s, Abort(s, id).0, id) || Stuck(s, Abort(s, id).0, id);
    ThreeWays(s, Abort(s, id).0, id);
  }

  lemma AwaitMoves(s: Kernel, id: InvId, answer: bool)
    requires Held(s) && id in s.tokens && s.tokens[id].Prepared?
    ensures Moves(s, AwaitApproval(s, id, answer), id)
  {
  }

  lemma ExecuteMoves(s: Kernel, id: InvId, outcome: Execution, now: Time)
    requires Held(s) && id in s.tokens && s.tokens[id].Authorized?
    ensures Moves(s, Execute(s, id, outcome, now), id)
  {
  }

  lemma DropMoves(s: Kernel, id: InvId)
    requires id in s.tokens
    ensures Moves(s, DropToken(s, id), id)
  {
    hide Moves;
    SpendIsStuck(s, id);
    ThreeWays(s, SpendToken(s, id), id);
  }

  // ----- Preparing -----

  lemma OpenHeld(s: Kernel, a: Attempt, direct: bool, app: AppId, grant: Grant, t: Clock)
    requires Held(s) && Declares(s.registry, a.slot.cap)
    ensures Held(Open(s, a, direct, app, grant, t).0)
  {
    hide Write;
    assert forall id | id in s.pending && id !in s.flags :: HeldBy(s.pending[id], s.tokens, id);
  }

  lemma PrepareHeld(s: Kernel, a: Attempt, direct: bool, t: Clock)
    requires Inv(s) && Held(s)
    ensures Held(Prepare(s, a, direct, t).0)
  {
    hide Inv, Write, Check, Open, Reap, Held;
    ReapFewer(s, t.now);
    FewerHeld(s, Reap(s, t.now).0);
    ReapInv(s, t.now);
    var (s1, ok) := Reap(s, t.now);
    if ok && Inadmissible(s1, a).None? {
      var app := s1.ledger.runs[a.run].app;
      var check := Check(s1.broker, t.wall, app, a.slot);
      if check.Denied? {
        FewerHeld(s1, Write(s1, [Record(Refused(a.run, a.slot, check.reason), 0)]).0);
      } else {
        OpenHeld(s1, a, direct, app, check.grant, t);
      }
    }
  }

  lemma SurfaceHeld(s: Kernel, app: AppId, a: Attempt, t: Clock)
    requires Inv(s) && Held(s)
    ensures Held(SurfaceAction(s, app, a, t).0)
  {
    hide Inv, StartRun, Prepare, EndRun, Held, Fewer;
    StartFewer(s, app, None);
    StartRunInv(s, app, None);
    var (s1, r) := StartRun(s, app, None);
    FewerHeld(s, s1);
    if r.RunOpened? {
      var own := app == a.slot.cap.provider;
      PrepareHeld(s1, a.(run := r.run), own, t);
      PrepareInv(s1, a.(run := r.run), own, t);
      var s2 := Prepare(s1, a.(run := r.run), own, t).0;
      EndFewer(s2, r.run, RunFailed);
      FewerHeld(s2, EndRun(s2, r.run, RunFailed).0);
    }
  }

  lemma BootHeld(s: Kernel, script: seq<CommitOutcome>)
    ensures Held(Restart(s, script).0)
  {
    hide Write, Bootable, ClosingEvents;
  }

  // ----- Every history -----

  lemma ActionHeld(s: Kernel, c: Call)
    requires Inv(s) && Held(s) && Enabled(s, c) && !IsLifecycle(c) && !c.DoRestart?
    ensures Held(Step(s, c))
  {
    hide Inv, Held, StartRun, Prepare, SurfaceAction, Authorize, Finalize, Abort, AwaitApproval, Execute, DropToken, CancelRun, Fewer,
         Moves;
    match c
    case DoStartRun(app, parent) =>
      StartFewer(s, app, parent);
      FewerHeld(s, Step(s, c));
    case DoPrepare(a, t) => PrepareHeld(s, a, false, t);
    case DoSurfaceAction(app, a, t) => SurfaceHeld(s, app, a, t);
    case DoAuthorize(id, t) =>
      AuthorizeMoves(s, id, t);
      MovesHeld(s, Step(s, c), id);
    case DoFinalize(id, t) =>
      FinalizeMoves(s, id, t);
      MovesHeld(s, Step(s, c), id);
    case DoAwaitApproval(id, answer) =>
      AwaitMoves(s, id, answer);
      MovesHeld(s, Step(s, c), id);
    case DoExecute(id, outcome, t) =>
      ExecuteMoves(s, id, outcome, t.now);
      MovesHeld(s, Step(s, c), id);
    case DoAbort(id) =>
      AbortMoves(s, id);
      MovesHeld(s, Step(s, c), id);
    case DoDropToken(id) =>
      DropMoves(s, id);
      MovesHeld(s, Step(s, c), id);
    case DoCancelRun(run) =>
      CancelFewer(s, run);
      FewerHeld(s, Step(s, c));
  }

  lemma LifecycleFewer(s: Kernel, c: Call)
    requires Enabled(s, c) && IsLifecycle(c)
    ensures Fewer(s, Step(s, c))
  {
    hide Fewer, EndRun, CommitGrant, RevokeAll, CommitInstall, Upgrade, Uninstall, GrantsOver, PlanOk;
    match c
    case DoEndRun(run, how) => EndFewer(s, run, how);
    case DoGrant(h, q, approved, hh, ph, t) => GrantsFewer(s, h, q, approved, hh, ph, t, {});
    case DoRevoke(id) => GrantsFewer(s, 0, ANY, false, NOBODY, NOBODY, Clock(0, 0), {id});
    case DoRevokeResource(r) => GrantsFewer(s, 0, ANY, false, NOBODY, NOBODY, Clock(0, 0), GrantsOver(s.broker, r));
    case DoInstall(p, events, decisions, t) => InstallFewer(s, p, events, decisions, t);
    case DoUpgrade(m, offered) => UpgradeFewer(s, m, offered);
    case DoUninstall(app) => UninstallFewer(s, app);
  }

  const NOBODY := Manifest(0, 0, map[], {}, [], true)
  const ANY := Request(Authority(AllCapabilities(0), NoData, Silent, NonExpiring), true)

  lemma HeldStep(s: Kernel, c: Call)
    requires Inv(s) && Held(s)
    ensures Held(Step(s, c))
  {
    hide Inv, Held, Apply, Fewer, Restart;
    if Enabled(s, c) {
      if c.DoRestart? {
        BootHeld(s, c.script);
        Restarts(s, c);
      } else if IsLifecycle(c) {
        LifecycleFewer(s, c);
        FewerHeld(s, Step(s, c));
      } else {
        ActionHeld(s, c);
      }
    }
  }

  lemma Restarts(s: Kernel, c: Call)
    requires c.DoRestart?
    ensures Step(s, c) == Restart(s, c.script).0
  {
    hide Restart;
  }

  /** Over every history: pending work that is not cancelled has its token with its caller. */
  lemma {:induction false} ReachableHeld(script: seq<CommitOutcome>, calls: seq<Call>)
    ensures Held(Run(Init(script), calls))
  {
    hide Inv, Held, Step;
    if calls == [] {
      InitHeld(script);
    } else {
      var n := |calls| - 1;
      ReachableHeld(script, calls[..n]);
      ReachableInv(script, calls[..n]);
      HeldStep(Run(Init(script), calls[..n]), calls[n]);
    }
  }

  lemma InitHeld(script: seq<CommitOutcome>)
    ensures Held(Init(script))
  {
  }
}
