/**
  Histories of ordinary calls, against a store that always commits: three after which
  the kernel cannot be restarted from its own store, and one after which a prepared
  invocation cannot be aborted and its run is still open.
 */
module Counterexamples {
  import opened Basics
  import opened Domain
  import opened Ledger
  import opened Broker
  import opened ActionLog
  import opened KernelState
  import opened ActionPath
  import opened Lifecycle
  import opened LifecycleInvariant
  import opened Provenance
  import opened Recovery
  import opened Runs

  const PROVIDER: AppId := 1
  const CLIENT: AppId := 2
  const CAP: CapName := 7
  const NOW := Clock(10, 10)

  /** Installing as the host does it: prepare, ask, commit. */
  function Install(s: Kernel, m: Manifest, decisions: seq<bool>): Call
    requires PrepareInstall(s, m, m.caps.Keys, ManifestRequested, NOW.wall).Planned?
  {
    DoInstall(PrepareInstall(s, m, m.caps.Keys, ManifestRequested, NOW.wall).plan, true, decisions, NOW)
  }

  // ----- A provider reinstalled without a capability that another app asks for -----

  const FULL := Manifest(PROVIDER, 0, map[CAP := ReadOnly], {}, [], true)
  const EMPTY := Manifest(PROVIDER, 1, map[], {}, [], true)
  const ASK := Request(Authority(ExactCapability(PROVIDER, CAP), NoData, Silent, NonExpiring), true)
  const DEPENDENT := Manifest(CLIENT, 0, map[], {}, [ASK], true)

  /** Apps and nothing else: no grants, no runs. */
  function Idle(registry: Registry, handlers: map<AppId, set<CapName>>): Kernel {
    var d := EMPTY_DURABLE.(registry := registry);
    Kernel(registry, EMPTY_LEDGER, NO_GRANTS, map[], handlers, map[], {}, map[], false, d, d, [], 0, 1)
  }

  lemma InstallPlain(registry: Registry, handlers: map<AppId, set<CapName>>, m: Manifest)
    requires m.app !in registry && m.app !in handlers && m.requests == [] && m.schemasOk
    ensures var s := Idle(registry, handlers);
            && PrepareInstall(s, m, m.caps.Keys, ManifestRequested, NOW.wall).Planned?
            && Enabled(s, Install(s, m, []))
            && Step(s, Install(s, m, [])) == Idle(registry[m.app := m], handlers[m.app := m.caps.Keys])
  {
    assert Authorities(m.requests) == [];
  }

  const DEPENDENT_PLAN :=
    Plan(DEPENDENT, ManifestRequested, Fresh, [ASK.authority], map[PROVIDER := Some(FULL)])

  lemma DependentFacts()
    ensures var registry := map[PROVIDER := FULL];
            && Authorities(DEPENDENT.requests) == [ASK.authority] && Dedup(Authorities(DEPENDENT.requests)) == [ASK.authority]
            && ProviderHashes(registry, DEPENDENT) == map[PROVIDER := Some(FULL)]
            && DEPENDENT.caps.Keys == {} && DEPENDENT.LocallyValid() && RequestsOk(registry, DEPENDENT, false)
  {
    var authorities := Authorities(DEPENDENT.requests);
    assert authorities == [ASK.authority];
    assert Dedup(authorities[..0]) == [] && Dedup(authorities) == [ASK.authority];
    assert ProviderHashes(map[PROVIDER := FULL], DEPENDENT) == map[PROVIDER := Some(FULL)];
  }

  lemma PlanDependent(handlers: map<AppId, set<CapName>>)
    ensures PrepareInstall(Idle(map[PROVIDER := FULL], handlers), DEPENDENT, {}, ManifestRequested, NOW.wall)
            == Planned(DEPENDENT_PLAN)
    ensures PlanOk(DEPENDENT_PLAN)
  {
    hide Authorities, Dedup, ProviderHashes, RequestsOk, Missing;
    DependentFacts();
  }

  lemma DeniedRound(wall: Time)
    ensures var q := Round(CLIENT, ManifestRequested, [ASK.authority], [false], wall);
            Reconcile(NO_GRANTS, Authorities(DEPENDENT.requests), q, 0) == Reconciled(NO_GRANTS, [None], 0)
  {
    var q := Round(CLIENT, ManifestRequested, [ASK.authority], [false], wall);
    var authorities := Authorities(DEPENDENT.requests);
    assert authorities == [ASK.authority] && authorities[..0] == [];
    assert !q.Approved(ASK.authority);
    assert Reconcile(NO_GRANTS, authorities[..0], q, 0) == Reconciled(NO_GRANTS, [], 0);
  }

  lemma DependentCommits()
    ensures CommitInstall(Idle(map[PROVIDER := FULL], map[PROVIDER := {CAP}]), DEPENDENT_PLAN, true, [false], NOW).0
            == Idle(map[PROVIDER := FULL, CLIENT := DEPENDENT], map[PROVIDER := {CAP}, CLIENT := {}])
  {
    hide Reconcile;
    var s := Idle(map[PROVIDER := FULL], map[PROVIDER := {CAP}]);
    assert DEPENDENT.caps.Keys == {};
    DeniedRound(NOW.wall);
    assert HashesCurrent(s.registry, DEPENDENT_PLAN.hashes) && RequestsOk(s.registry, DEPENDENT, false);
  }

  lemma InstallDependent()
    ensures var s := Idle(map[PROVIDER := FULL], map[PROVIDER := {CAP}]);
            && PrepareInstall(s, DEPENDENT, DEPENDENT.caps.Keys, ManifestRequested, NOW.wall).Planned?
            && Step(s, Install(s, DEPENDENT, [false]))
               == Idle(map[PROVIDER := FULL, CLIENT := DEPENDENT], map[PROVIDER := {CAP}, CLIENT := {}])
  {
    hide PrepareInstall, CommitInstall, PlanOk;
    var s := Idle(map[PROVIDER := FULL], map[PROVIDER := {CAP}]);
    assert DEPENDENT.caps.Keys == {};
    PlanDependent(s.handlers);
    DependentCommits();
  }

  lemma UninstallIdle(registry: Registry, handlers: map<AppId, set<CapName>>, app: AppId)
    requires app in registry
    ensures Step(Idle(registry, handlers), DoUninstall(app)) == Idle(registry - {app}, handlers - {app})
  {
    var s := Idle(registry, handlers);
    NothingInOrder(s.nextInv);
    NothingInOrder(s.nextId);
    assert PendingOfApp(s, app) * s.pending.Keys == {};
    assert ActiveRuns(s.ledger.runs, app) == {};
    assert Close(s, PendingOfApp(s, app)) + Ends([], RunCancelled) == [];
    assert RevokeApp(NO_GRANTS, app) == NO_GRANTS;
  }

  /** The provider comes back without the capability its client's manifest names. */
  lemma ReinstallCannotRestart() returns (calls: seq<Call>)
    ensures !Bootable(Run(Init([]), calls).disk) && Restorable(Run(Init([]), calls).disk)
  {
    hide Step, PrepareInstall, Restorable, ManifestPass, Run, Replay;
    var s0 := Idle(map[], map[]);
    InitIsIdle();
    InstallPlain(map[], map[], FULL);
    var s1 := Idle(map[PROVIDER := FULL], map[PROVIDER := {CAP}]);
    assert FULL.caps.Keys == {CAP};
    InstallDependent();
    var s2 := Idle(map[PROVIDER := FULL, CLIENT := DEPENDENT], map[PROVIDER := {CAP}, CLIENT := {}]);
    UninstallIdle(s2.registry, s2.handlers, PROVIDER);
    var s3 := Idle(map[CLIENT := DEPENDENT], map[CLIENT := {}]);
    assert s2.registry - {PROVIDER} == s3.registry && s2.handlers - {PROVIDER} == s3.handlers;
    InstallPlain(s3.registry, s3.handlers, EMPTY);
    assert EMPTY.caps.Keys == {};
    calls := After([], Install(s0, FULL, []), s0, s1);
    calls := After(calls, Install(s1, DEPENDENT, [false]), s1, s2);
    calls := After(calls, DoUninstall(PROVIDER), s2, s3);
    calls := After(calls, Install(s3, EMPTY, []), s3, Idle(s3.registry[PROVIDER := EMPTY], s3.handlers[PROVIDER := {}]));
    ShortOfCapability(s3.registry[PROVIDER := EMPTY]);
    StoreRestorable(calls);
  }

  lemma ShortOfCapability(registry: Registry)
    requires CLIENT in registry && registry[CLIENT] == DEPENDENT && PROVIDER in registry && registry[PROVIDER] == EMPTY
    ensures !ManifestPass(registry)
  {
    assert ASK in DEPENDENT.requests;
    assert !TargetOk(registry, DEPENDENT, ASK.authority.scope, true);
    assert !RequestsOk(registry, registry[CLIENT], true);
  }

  lemma StoreRestorable(calls: seq<Call>)
    ensures Restorable(Run(Init([]), calls).disk)
  {
    hide Run;
    ReachableInv([], calls);
  }

  /** One more call. */
  lemma After(calls: seq<Call>, c: Call, s: Kernel, s': Kernel) returns (more: seq<Call>)
    requires Run(Init([]), calls) == s && Step(s, c) == s'
    ensures Run(Init([]), more) == s'
  {
    hide Step;
    more := calls + [c];
    assert more[..|calls|] == calls;
  }

  // ----- One app, one grant over its own capability that requires approval -----

  const SLOT := Slot(CapRef(PROVIDER, CAP), NoData)
  const NEED := Request(Authority(ExactCapability(PROVIDER, CAP), NoData, RequiresApproval, NonExpiring), true)
  const OWN := Manifest(PROVIDER, 0, map[CAP := ReadOnly], {}, [NEED], true)
  const GRANT := NewGrant(0, PROVIDER, NEED.authority, ManifestRequested, NOW.wall)
  const KEY := Key(SLOT, GRANT.id)
  const RUN: RunId := 1
  const ATTEMPT := Attempt(RUN, SLOT, true, true, 10)
  const WORK := Pending(RUN, PROVIDER, SLOT, GRANT, OWN, 20, false)

  const OWN_PLAN := Plan(OWN, ManifestRequested, Fresh, [NEED.authority], map[])

  function Busy(records: seq<Record>, runs: RunIndex, pending: map<InvId, Pending>, flags: set<InvId>,
                tokens: map<InvId, Token>, nextId: nat, nextInv: InvId): Kernel
  {
    var d := Durable(map[PROVIDER := OWN], Broker([GRANT], {}), records, map[]);
    Kernel(d.registry, RunLedger(records, runs), d.broker, map[], map[PROVIDER := {CAP}], pending, flags, tokens, false,
           d, d, [], nextId, nextInv)
  }

  lemma PlanOwn()
    ensures PrepareInstall(Idle(map[], map[]), OWN, OWN.caps.Keys, ManifestRequested, NOW.wall) == Planned(OWN_PLAN)
    ensures PlanOk(OWN_PLAN)
  {
    var authorities := Authorities(OWN.requests);
    assert authorities == [NEED.authority];
    assert Dedup(authorities[..0]) == [] && Dedup(authorities) == [NEED.authority];
    assert ProviderHashes(map[], OWN) == map[];
    assert OWN.LocallyValid() && RequestsOk(map[], OWN, false);
  }

  lemma ApprovedRound()
    ensures var q := Round(PROVIDER, ManifestRequested, [NEED.authority], [true], NOW.wall);
            Reconcile(NO_GRANTS, Authorities(OWN.requests), q, 0) == Reconciled(Broker([GRANT], {}), [Some(GRANT)], 1)
  {
    var q := Round(PROVIDER, ManifestRequested, [NEED.authority], [true], NOW.wall);
    var authorities := Authorities(OWN.requests);
    assert authorities == [NEED.authority] && authorities[..0] == [];
    assert q.Approved(NEED.authority);
    assert Reconcile(NO_GRANTS, authorities[..0], q, 0) == Reconciled(NO_GRANTS, [], 0);
  }

  lemma InstallOwn()
    ensures var s := Idle(map[], map[]);
            && PrepareInstall(s, OWN, OWN.caps.Keys, ManifestRequested, NOW.wall).Planned?
            && Step(s, Install(s, OWN, [true])) == Busy([], map[], map[], {}, map[], 1, 1)
  {
    hide PrepareInstall, Reconcile, PlanOk;
    PlanOwn();
    ApprovedRound();
    assert RequestsOk(map[], OWN, false);
    assert OWN.caps.Keys == {CAP};
  }

  lemma Commits(records: seq<Record>, runs: RunIndex, pending: map<InvId, Pending>, flags: set<InvId>,
                tokens: map<InvId, Token>, nextId: nat, nextInv: InvId, r: Record)
    requires CanAppend(runs, r.event)
    ensures Write(Busy(records, runs, pending, flags, tokens, nextId, nextInv), [r])
            == (Busy(records + [r], IndexEvent(runs, r.event), pending, flags, tokens, nextId, nextInv), true)
  {
    var l := RunLedger(records, runs);
    assert [r][1..] == [] && AppendAll(Append(l, r), []) == Some(Append(l, r));
  }

  lemma GrantFound(b: Broker)
    requires b == Broker([GRANT], {})
    ensures Check(b, NOW.wall, PROVIDER, SLOT) == ApprovalRequired(GRANT)
  {
    assert GRANT in b.grants && CoversFor(GRANT, PROVIDER, SLOT) && b.Live(GRANT, NOW.wall);
  }

  const STARTED := map[RUN := RunInfo(PROVIDER, true)]
  const START := Record(RunStarted(RUN, PROVIDER, None), 0)

  lemma Starts()
    ensures StartRun(Busy([], map[], map[], {}, map[], 1, 1), PROVIDER, None)
            == (Busy([START], STARTED, map[], {}, map[], 2, 1), RunOpened(RUN))
  {
    hide Write;
    Commits([], map[], map[], {}, map[], 2, 1, START);
    assert [] + [START] == [START] && IndexEvent(map[], START.event) == STARTED;
  }

  /** Preparing the work once more, by a click in its own surface or by a program. */
  lemma Prepares(records: seq<Record>, pending: map<InvId, Pending>, tokens: map<InvId, Token>, direct: bool, nextInv: InvId)
    requires forall id | id in pending :: pending[id] == WORK
    ensures var e := if direct then Invoked(RUN, KEY) else ApprovalRequested(RUN, KEY);
            Prepare(Busy(records, STARTED, pending, {}, tokens, 2, nextInv), ATTEMPT, direct, NOW)
            == (Busy(records + [Record(e, nextInv)], STARTED, pending[nextInv := WORK], {},
                     tokens[nextInv := Prepared(!direct)], 2, nextInv + 1), WorkPrepared(nextInv, !direct))
  {
    hide Write, Check;
    var s := Busy(records, STARTED, pending, {}, tokens, 2, nextInv);
    var e := if direct then Invoked(RUN, KEY) else ApprovalRequested(RUN, KEY);
    assert PendingDue(s, NOW.now) == {};
    GrantFound(s.broker);
    Commits(records, STARTED, pending, {}, tokens, 2, nextInv, Record(e, nextInv));
  }

  lemma Dispatches(records: seq<Record>, pending: map<InvId, Pending>, tokens: map<InvId, Token>, id: InvId, nextInv: InvId)
    requires id in pending && pending[id] == WORK
    ensures Dispatch(Busy(records, STARTED, pending, {}, tokens, 2, nextInv), id, NOW)
            == (Busy(records + [Record(Invoked(RUN, KEY), id)], STARTED, pending[id := WORK.(authorized := true)], {},
                     tokens[id := Authorized(20)], 2, nextInv), Dispatched)
  {
    hide Write, Check;
    GrantFound(Broker([GRANT], {}));
    Commits(records, STARTED, pending, {}, tokens, 2, nextInv, Record(Invoked(RUN, KEY), id));
  }

  const SUCCESS := Returned(true, [])

  lemma Finishes(records: seq<Record>, pending: map<InvId, Pending>, tokens: map<InvId, Token>, id: InvId, nextInv: InvId,
                 flags: set<InvId>)
    requires id in pending && pending[id] == WORK.(authorized := true) && id in tokens && tokens[id] == Executed(SUCCESS)
    requires id !in flags
    ensures Finalize(Busy(records, STARTED, pending, flags, tokens, 2, nextInv), id, NOW).0
            == Busy(records + [Record(Completed(RUN, KEY), id)], STARTED, pending - {id}, flags, tokens - {id}, 2, nextInv)
  {
    hide Check, Complete;
    GrantFound(Broker([GRANT], {}));
    Completes(records, pending, tokens - {id}, id, nextInv, flags);
  }

  lemma Completes(records: seq<Record>, pending: map<InvId, Pending>, tokens: map<InvId, Token>, id: InvId, nextInv: InvId,
                  flags: set<InvId>)
    requires id in pending && pending[id] == WORK.(authorized := true)
    ensures Complete(Busy(records, STARTED, pending, flags, tokens, 2, nextInv), id, []).0
            == Busy(records + [Record(Completed(RUN, KEY), id)], STARTED, pending - {id}, flags, tokens, 2, nextInv)
  {
    var s, r := Busy(records, STARTED, pending, flags, tokens, 2, nextInv), Record(Completed(RUN, KEY), id);
    assert ProductionRecords(s, id, []) + [r] == [r];
    assert s.artifacts + StampedArtifacts(s, id, []) == s.artifacts;
    AppendQuiet(s.ledger, [r]);
  }

  // ----- A click taken for approval -----

  lemma ClickSteps()
    ensures Step(Busy([], map[], map[], {}, map[], 1, 1), DoSurfaceAction(PROVIDER, ATTEMPT, NOW))
            == Busy([START] + [Record(Invoked(RUN, KEY), 1)], STARTED, map[1 := WORK], {}, map[1 := Prepared(false)], 2, 2)
  {
    hide StartRun, Prepare;
    Starts();
    Prepares([START], map[], map[], true, 1);
    assert ATTEMPT.(run := RUN) == ATTEMPT;
  }

  lemma AuthorizeClick(records: seq<Record>)
    ensures Step(Busy(records, STARTED, map[1 := WORK], {}, map[1 := Answered(None)], 2, 2), DoAuthorize(1, NOW))
            == Busy(records + [Record(Invoked(RUN, KEY), 1)], STARTED, map[1 := WORK.(authorized := true)], {},
                    map[1 := Authorized(20)], 2, 2)
  {
    hide Dispatch;
    Dispatches(records, map[1 := WORK], map[], 1, 2);
    var one: map<InvId, Token> := map[1 := Answered(None)];
    assert one - {1} == map[];
    assert map[1 := WORK][1 := WORK.(authorized := true)] == map[1 := WORK.(authorized := true)];
  }

  lemma EndsRun(records: seq<Record>)
    ensures Step(Busy(records, STARTED, map[], {}, map[], 2, 2), DoEndRun(RUN, RunCompleted)).disk.records
            == records + [Record(RunEnded(RUN, RunCompleted), 0)]
  {
    hide Write;
    var s := Busy(records, STARTED, map[], {}, map[], 2, 2);
    NothingInOrder(s.nextInv);
    assert PendingOfRun(s, RUN) * s.pending.Keys == {};
    assert Close(s, PendingOfRun(s, RUN)) + Ends([RUN], RunCompleted) == [Record(RunEnded(RUN, RunCompleted), 0)];
    Commits(records, STARTED, map[], {}, map[], 2, 2, Record(RunEnded(RUN, RunCompleted), 0));
  }

  /** One more record of the one run. */
  lemma ReplayOne(records: seq<Record>, o: Outstanding, r: Record)
    requires Replay(records) == Some(map[RUN := o]) && r.event.run == RUN
    ensures var o' := ReplayEvent(o, r.event);
            Replay(records + [r]) == if o'.Some? then Some(map[RUN := o'.value]) else None
  {
    ReplayAppend(records, r);
    assert At(map[RUN := o], RUN) == o;
    var o' := ReplayEvent(o, r.event);
    if o'.Some? {
      assert map[RUN := o][RUN := o'.value] == map[RUN := o'.value];
    }
  }

  lemma ReplayStart()
    ensures Replay([START]) == Some(map[RUN := NOTHING])
  {
    assert [START][..0] == [];
    assert At(map[], RUN) == NOTHING;
  }

  lemma TwiceBegunReplay()
    ensures var r := Record(Invoked(RUN, KEY), 1);
            Replay([START] + [r] + [r] + [Record(Completed(RUN, KEY), 1)] + [Record(RunEnded(RUN, RunCompleted), 0)]).None?
  {
    hide Replay;
    var r, c, e := Record(Invoked(RUN, KEY), 1), Record(Completed(RUN, KEY), 1), Record(RunEnded(RUN, RunCompleted), 0);
    ReplayStart();
    ReplayOne([START], NOTHING, r);
    assert ReplayEvent(NOTHING, r.event).value.executing == [KEY];
    ReplayOne([START] + [r], Outstanding([], [], [KEY]), r);
    assert ReplayEvent(Outstanding([], [], [KEY]), r.event).value.executing == [KEY, KEY];
    ReplayOne([START] + [r] + [r], Outstanding([], [], [KEY, KEY]), c);
    assert KEY in Without([KEY, KEY], KEY) by {
      assert Count(Without([KEY, KEY], KEY), KEY) == 1;
    }
    ReplayOne([START] + [r] + [r] + [c], Outstanding([], [], Without([KEY, KEY], KEY)), e);
  }

  /** Clicking a read-only action of the app's own surface, under a grant that requires approval. */
  lemma ClickCannotRestart() returns (calls: seq<Call>)
    ensures !Bootable(Run(Init([]), calls).disk) && Restorable(Run(Init([]), calls).disk)
  {
    hide Step, PrepareInstall, Restorable, ManifestPass, Run, Replay;
    var s0, s1 := Idle(map[], map[]), Busy([], map[], map[], {}, map[], 1, 1);
    var r, c := Record(Invoked(RUN, KEY), 1), Record(Completed(RUN, KEY), 1);
    InstallOwn();
    InitIsIdle();
    calls := After([], Install(s0, OWN, [true]), s0, s1);
    ClickSteps();
    var s2 := Busy([START] + [r], STARTED, map[1 := WORK], {}, map[1 := Prepared(false)], 2, 2);
    calls := After(calls, DoSurfaceAction(PROVIDER, ATTEMPT, NOW), s1, s2);
    var s3 := s2.(tokens := map[1 := Answered(None)]);
    Awaits(s2, 1, true);
    calls := After(calls, DoAwaitApproval(1, true), s2, s3);
    AuthorizeClick([START] + [r]);
    var s4 := Busy([START] + [r] + [r], STARTED, map[1 := WORK.(authorized := true)], {}, map[1 := Authorized(20)], 2, 2);
    calls := After(calls, DoAuthorize(1, NOW), s3, s4);
    var s5 := s4.(tokens := map[1 := Executed(SUCCESS)]);
    Executes(s4, 1);
    calls := After(calls, DoExecute(1, SUCCESS, NOW), s4, s5);
    var s6 := Busy([START] + [r] + [r] + [c], STARTED, map[], {}, map[], 2, 2);
    FinalizesClick([START] + [r] + [r]);
    calls := After(calls, DoFinalize(1, NOW), s5, s6);
    EndsRun([START] + [r] + [r] + [c]);
    calls := After(calls, DoEndRun(RUN, RunCompleted), s6, Step(s6, DoEndRun(RUN, RunCompleted)));
    assert [START] + [r] + [r] + [c] + [Record(RunEnded(RUN, RunCompleted), 0)] == [START, r, r, c, Record(RunEnded(RUN, RunCompleted), 0)];
    TwiceBegunReplay();
    StoreRestorable(calls);
  }

  lemma InitIsIdle()
    ensures Init([]) == Idle(map[], map[]) && Run(Init([]), []) == Idle(map[], map[])
  {
  }

  lemma Awaits(s: Kernel, id: InvId, answer: bool)
    requires id in s.tokens && s.tokens[id].Prepared?
    ensures Step(s, DoAwaitApproval(id, answer)) == AwaitApproval(s, id, answer)
  {
  }

  lemma Executes(s: Kernel, id: InvId)
    requires id in s.tokens && s.tokens[id] == Authorized(20) && id !in s.flags
    ensures Step(s, DoExecute(id, SUCCESS, NOW)) == s.(tokens := s.tokens[id := Executed(SUCCESS)])
  {
  }

  lemma FinalizesClick(records: seq<Record>)
    ensures Step(Busy(records, STARTED, map[1 := WORK.(authorized := true)], {}, map[1 := Executed(SUCCESS)], 2, 2), DoFinalize(1, NOW))
            == Busy(records + [Record(Completed(RUN, KEY), 1)], STARTED, map[], {}, map[], 2, 2)
  {
    hide Finalize;
    var pending, tokens := map[1 := WORK.(authorized := true)], map[1 := Executed(SUCCESS)];
    Finishes(records, pending, tokens, 1, 2, {});
    assert pending - {1} == map[] && tokens - {1} == map[];
  }

  // ----- Two prompts for the same capability and data in one run -----

  const ASKED := map[1 := WORK, 2 := WORK]
  const BEGUN := map[1 := WORK.(authorized := true), 2 := WORK]

  lemma PreparesTwice()
    ensures Step(Busy([], map[], map[], {}, map[], 1, 1), DoStartRun(PROVIDER, None))
            == Busy([START], STARTED, map[], {}, map[], 2, 1)
    ensures Step(Busy([START], STARTED, map[], {}, map[], 2, 1), DoPrepare(ATTEMPT, NOW))
            == Busy([START] + [Record(ApprovalRequested(RUN, KEY), 1)], STARTED, map[1 := WORK], {}, map[1 := Prepared(true)], 2, 2)
    ensures forall records ::
              Step(Busy(records, STARTED, map[1 := WORK], {}, map[1 := Prepared(true)], 2, 2), DoPrepare(ATTEMPT, NOW))
              == Busy(records + [Record(ApprovalRequested(RUN, KEY), 2)], STARTED, ASKED, {},
                      map[1 := Prepared(true), 2 := Prepared(true)], 2, 3)
  {
    hide StartRun, Prepare;
    Starts();
    Prepares([START], map[], map[], false, 1);
    forall records
      ensures Step(Busy(records, STARTED, map[1 := WORK], {}, map[1 := Prepared(true)], 2, 2), DoPrepare(ATTEMPT, NOW))
              == Busy(records + [Record(ApprovalRequested(RUN, KEY), 2)], STARTED, ASKED, {},
                      map[1 := Prepared(true), 2 := Prepared(true)], 2, 3)
    {
      Prepares(records, map[1 := WORK], map[1 := Prepared(true)], false, 2);
    }
  }

  lemma AuthorizeApproved(s: Kernel, id: InvId)
    requires id in s.tokens && s.tokens[id] == Answered(Some(true)) && id in s.pending && s.pending[id] == WORK
    ensures var (s1, ok) := Write(s.(tokens := s.tokens - {id}), [Record(ApprovalGranted(RUN, KEY), id)]);
            ok ==> Authorize(s, id, NOW) == Dispatch(s1, id, NOW)
  {
    hide Dispatch, Write;
  }

  lemma StepsAre(s: Kernel, id: InvId)
    requires id in s.tokens
    ensures s.tokens[id].Answered? ==> Step(s, DoAuthorize(id, NOW)) == Authorize(s, id, NOW).0
    ensures s.tokens[id].Prepared? ==> Step(s, DoAbort(id)) == Abort(s, id).0
  {
    hide Authorize, Abort;
  }

  lemma AbortWritten(s: Kernel, id: InvId)
    requires id in s.tokens && s.tokens[id].Prepared? && id in s.pending && s.pending[id] == WORK
    ensures var (s1, ok) := Write(s, [Record(Cancelled(RUN, SLOT), id)]);
            ok ==> Abort(s, id).0 == SpendToken(s1.(pending := s1.pending - {id}), id)
  {
    hide Write;
  }

  lemma AuthorizesFirst(records: seq<Record>)
    ensures Step(Busy(records, STARTED, ASKED, {}, FIRST_ANSWERED, 2, 3), DoAuthorize(1, NOW))
            == Busy(records + [Record(ApprovalGranted(RUN, KEY), 1)] + [Record(Invoked(RUN, KEY), 1)], STARTED, BEGUN, {},
                    map[1 := Authorized(20), 2 := Prepared(true)], 2, 3)
  {
    hide Dispatch, Write, Authorize, Step;
    var g, waiting := Record(ApprovalGranted(RUN, KEY), 1), Busy(records, STARTED, ASKED, {}, FIRST_ANSWERED, 2, 3);
    StepsAre(waiting, 1);
    AuthorizeApproved(waiting, 1);
    TwinTables();
    Commits(records, STARTED, ASKED, {}, SECOND_OPEN, 2, 3, g);
    Dispatches(records + [g], ASKED, SECOND_OPEN, 1, 3);
  }

  const FIRST_ANSWERED: map<InvId, Token> := map[1 := Answered(Some(true)), 2 := Prepared(true)]
  const SECOND_OPEN: map<InvId, Token> := map[2 := Prepared(true)]

  lemma TwinTables()
    ensures FIRST_ANSWERED - {1} == SECOND_OPEN
    ensures SECOND_OPEN[1 := Authorized(20)] == map[1 := Authorized(20), 2 := Prepared(true)]
    ensures ASKED[1 := WORK.(authorized := true)] == BEGUN
  {
  }

  lemma AbortsSecond(records: seq<Record>)
    ensures Step(Busy(records, STARTED, BEGUN, {}, map[1 := Authorized(20), 2 := Prepared(true)], 2, 3), DoAbort(2))
            == Busy(records + [Record(Cancelled(RUN, SLOT), 2)], STARTED, map[1 := WORK.(authorized := true)], {2},
                    map[1 := Authorized(20)], 2, 3)
  {
    hide Write, Abort, Step;
    var tokens: map<InvId, Token> := map[1 := Authorized(20), 2 := Prepared(true)];
    StepsAre(Busy(records, STARTED, BEGUN, {}, tokens, 2, 3), 2);
    AbortWritten(Busy(records, STARTED, BEGUN, {}, tokens, 2, 3), 2);
    Commits(records, STARTED, BEGUN, {}, tokens, 2, 3, Record(Cancelled(RUN, SLOT), 2));
    assert BEGUN - {2} == map[1 := WORK.(authorized := true)] && tokens - {2} == map[1 := Authorized(20)];
    assert {} + {2} == {2};
  }

  lemma FinalizesFirst(records: seq<Record>)
    ensures Step(Busy(records, STARTED, map[1 := WORK.(authorized := true)], {2}, map[1 := Executed(SUCCESS)], 2, 3), DoFinalize(1, NOW)).disk.records
            == records + [Record(Completed(RUN, KEY), 1)]
  {
    hide Finalize;
    Finishes(records, map[1 := WORK.(authorized := true)], map[1 := Executed(SUCCESS)], 1, 3, {2});
  }

  lemma TwinsReplay()
    ensures Replay([START] + [Record(ApprovalRequested(RUN, KEY), 1)] + [Record(ApprovalRequested(RUN, KEY), 2)]
                   + [Record(ApprovalGranted(RUN, KEY), 1)] + [Record(Invoked(RUN, KEY), 1)]
                   + [Record(Cancelled(RUN, SLOT), 2)] + [Record(Completed(RUN, KEY), 1)]).None?
  {
    hide Replay, Without;
    var q1, q2 := Record(ApprovalRequested(RUN, KEY), 1), Record(ApprovalRequested(RUN, KEY), 2);
    var g, i := Record(ApprovalGranted(RUN, KEY), 1), Record(Invoked(RUN, KEY), 1);
    var x, c := Record(Cancelled(RUN, SLOT), 2), Record(Completed(RUN, KEY), 1);
    var rest := Without([KEY, KEY], KEY);
    OnlyOne();
    ReplayStart();
    ReplayOne([START], NOTHING, q1);
    assert [] + [KEY] == [KEY] && [KEY] + [KEY] == [KEY, KEY];
    ReplayOne([START] + [q1], Outstanding([KEY], [], []), q2);
    ReplayOne([START] + [q1] + [q2], Outstanding([KEY, KEY], [], []), g);
    ReplayOne([START] + [q1] + [q2] + [g], Outstanding(rest, [KEY], []), i);
    ReplayOne([START] + [q1] + [q2] + [g] + [i], Outstanding(rest, [], [KEY]), x);
    assert FindSlot([KEY], SLOT) == Some(KEY);
    ReplayOne([START] + [q1] + [q2] + [g] + [i] + [x], Outstanding(rest, [], []), c);
  }

  lemma OnlyOne()
    ensures Without([KEY], KEY) == []
  {
    assert FirstIndex([KEY], KEY) == 0;
  }

  /** Two prompts are open; the first is approved and begun, the second given up, then the first completes. */
  lemma TwinsCannotRestart() returns (calls: seq<Call>)
    ensures !Bootable(Run(Init([]), calls).disk) && Restorable(Run(Init([]), calls).disk)
  {
    hide Step, PrepareInstall, Restorable, ManifestPass, Run, Replay;
    var q1, q2 := Record(ApprovalRequested(RUN, KEY), 1), Record(ApprovalRequested(RUN, KEY), 2);
    var g, i, x := Record(ApprovalGranted(RUN, KEY), 1), Record(Invoked(RUN, KEY), 1), Record(Cancelled(RUN, SLOT), 2);
    var s0, s1 := Idle(map[], map[]), Busy([], map[], map[], {}, map[], 1, 1);
    InstallOwn();
    InitIsIdle();
    calls := After([], Install(s0, OWN, [true]), s0, s1);
    PreparesTwice();
    var s2 := Busy([START], STARTED, map[], {}, map[], 2, 1);
    calls := After(calls, DoStartRun(PROVIDER, None), s1, s2);
    var s3 := Busy([START] + [q1], STARTED, map[1 := WORK], {}, map[1 := Prepared(true)], 2, 2);
    calls := After(calls, DoPrepare(ATTEMPT, NOW), s2, s3);
    var s4 := Busy([START] + [q1] + [q2], STARTED, ASKED, {}, map[1 := Prepared(true), 2 := Prepared(true)], 2, 3);
    calls := After(calls, DoPrepare(ATTEMPT, NOW), s3, s4);
    calls := TwinsGoOn(calls);
    TwinsReplay();
    StoreRestorable(calls);
  }

  lemma TwinsGoOn(calls: seq<Call>) returns (more: seq<Call>)
    requires var asked := [START] + [Record(ApprovalRequested(RUN, KEY), 1)] + [Record(ApprovalRequested(RUN, KEY), 2)];
             Run(Init([]), calls) == Busy(asked, STARTED, ASKED, {}, map[1 := Prepared(true), 2 := Prepared(true)], 2, 3)
    ensures var asked := [START] + [Record(ApprovalRequested(RUN, KEY), 1)] + [Record(ApprovalRequested(RUN, KEY), 2)];
            Run(Init([]), more).disk.records
            == asked + [Record(ApprovalGranted(RUN, KEY), 1)] + [Record(Invoked(RUN, KEY), 1)]
               + [Record(Cancelled(RUN, SLOT), 2)] + [Record(Completed(RUN, KEY), 1)]
  {
    hide Step, Run, Init;
    var asked := [START] + [Record(ApprovalRequested(RUN, KEY), 1)] + [Record(ApprovalRequested(RUN, KEY), 2)];
    var begun := asked + [Record(ApprovalGranted(RUN, KEY), 1)] + [Record(Invoked(RUN, KEY), 1)];
    var gone := begun + [Record(Cancelled(RUN, SLOT), 2)];
    var s4 := Busy(asked, STARTED, ASKED, {}, map[1 := Prepared(true), 2 := Prepared(true)], 2, 3);
    var s5 := Busy(asked, STARTED, ASKED, {}, FIRST_ANSWERED, 2, 3);
    Awaits(s4, 1, true);
    assert s4.tokens[1 := Answered(Some(true))] == s5.tokens;
    more := After(calls, DoAwaitApproval(1, true), s4, s5);
    AuthorizesFirst(asked);
    var s6 := Busy(begun, STARTED, BEGUN, {}, map[1 := Authorized(20), 2 := Prepared(true)], 2, 3);
    more := After(more, DoAuthorize(1, NOW), s5, s6);
    AbortsSecond(begun);
    var s7 := Busy(gone, STARTED, map[1 := WORK.(authorized := true)], {2}, map[1 := Authorized(20)], 2, 3);
    more := After(more, DoAbort(2), s6, s7);
    Executes(s7, 1);
    var s8 := Busy(gone, STARTED, map[1 := WORK.(authorized := true)], {2}, map[1 := Executed(SUCCESS)], 2, 3);
    assert s7.tokens[1 := Executed(SUCCESS)] == s8.tokens;
    more := After(more, DoExecute(1, SUCCESS, NOW), s7, s8);
    FinalizesFirst(gone);
    more := After(more, DoFinalize(1, NOW), s8, Step(s8, DoFinalize(1, NOW)));
  }

  // ----- A reservation that someone else's preparation reaps -----

  /** An attempt in a run that does not exist: it fails, after reaping. */
  const ELSEWHERE := ATTEMPT.(run := 9)

  lemma FlagsAll(records: seq<Record>)
    ensures Step(Busy(records, STARTED, map[1 := WORK], {}, map[1 := Prepared(true)], 2, 2), DoCancelRun(RUN))
            == Busy(records, STARTED, map[1 := WORK], {1}, map[1 := Prepared(true)], 2, 2)
  {
    var s := Busy(records, STARTED, map[1 := WORK], {}, map[1 := Prepared(true)], 2, 2);
    assert PendingOfRun(s, RUN) == {1};
  }

  lemma ClosesOne(s: Kernel)
    requires s.pending == map[1 := WORK] && s.flags == {1} && s.nextInv == 2
    ensures PendingDue(s, NOW.now) == {1} && Close(s, {1}) == [Record(Cancelled(RUN, SLOT), 1)] && s.pending - {1} == map[]
  {
    assert {1} * s.pending.Keys == {1};
    assert InOrder({1}, 0) == [] && InOrder({1}, 1) == [] && InOrder({1}, 2) == [1];
  }

  lemma ReapsFlagged(records: seq<Record>)
    ensures Reap(Busy(records, STARTED, map[1 := WORK], {1}, map[1 := Prepared(true)], 2, 2), NOW.now)
            == (Busy(records + [Record(Cancelled(RUN, SLOT), 1)], STARTED, map[], {1}, map[1 := Prepared(true)], 2, 2), true)
  {
    hide Write, Close, PendingDue;
    ClosesOne(Busy(records, STARTED, map[1 := WORK], {1}, map[1 := Prepared(true)], 2, 2));
    Commits(records, STARTED, map[1 := WORK], {1}, map[1 := Prepared(true)], 2, 2, Record(Cancelled(RUN, SLOT), 1));
  }

  lemma ReapsOther(records: seq<Record>)
    ensures Step(Busy(records, STARTED, map[1 := WORK], {1}, map[1 := Prepared(true)], 2, 2), DoPrepare(ELSEWHERE, NOW))
            == Busy(records + [Record(Cancelled(RUN, SLOT), 1)], STARTED, map[], {1}, map[1 := Prepared(true)], 2, 2)
  {
    hide Reap, Check, Write;
    ReapsFlagged(records);
  }

  /**
    Work is prepared, its run is cancelled, and someone prepares something else. The
    caller that cancelled can then not abort its own work, and nothing is left pending
    in the run, which is still active.
   */
  lemma AbortFindsNothing() returns (calls: seq<Call>)
    ensures var s := Run(Init([]), calls);
            && Enabled(s, DoAbort(1)) && Apply(s, DoAbort(1)).1 == Failure(Consumed)
            && Active(Step(s, DoAbort(1)).ledger.runs, RUN) && Step(s, DoAbort(1)).pending == map[]
            && Step(s, DoAbort(1)).tokens == map[]
  {
    hide Step, PrepareInstall, Run;
    var q1 := Record(ApprovalRequested(RUN, KEY), 1);
    var s0, s1 := Idle(map[], map[]), Busy([], map[], map[], {}, map[], 1, 1);
    InstallOwn();
    InitIsIdle();
    calls := After([], Install(s0, OWN, [true]), s0, s1);
    PreparesTwice();
    var s2 := Busy([START], STARTED, map[], {}, map[], 2, 1);
    calls := After(calls, DoStartRun(PROVIDER, None), s1, s2);
    var s3 := Busy([START] + [q1], STARTED, map[1 := WORK], {}, map[1 := Prepared(true)], 2, 2);
    calls := After(calls, DoPrepare(ATTEMPT, NOW), s2, s3);
    FlagsAll([START] + [q1]);
    var s4 := s3.(flags := {1});
    calls := After(calls, DoCancelRun(RUN), s3, s4);
    ReapsOther([START] + [q1]);
    var s5 := Busy([START] + [q1] + [Record(Cancelled(RUN, SLOT), 1)], STARTED, map[], {1}, map[1 := Prepared(true)], 2, 2);
    calls := After(calls, DoPrepare(ELSEWHERE, NOW), s4, s5);
    StepsAre(s5, 1);
    assert s5.tokens - {1} == map[];
  }
}
