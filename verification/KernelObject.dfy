/**
  The kernel as the object it is: fields updated in place, a store it commits to,
  loops over its tables. Every method is proved to do what the corresponding
  function on kernel values says, and driving the object through any calls, restarts
  included, to be a history; so what is proved of histories holds of the object.
 */
module KernelObject {
  import opened Basics
  import opened Domain
  import opened Ledger
  import opened Broker
  import opened KernelState
  import A = ActionPath
  import L = Lifecycle
  import ActionLog
  import Provenance
  import KernelInvariant
  import Recovery
  import RecoveryCheck
  import R = Runs

  /** A store that holds one complete state and answers each commit as scripted. */
  class Store {
    var disk: Durable
    var offered: Durable
    var script: seq<CommitOutcome>

    constructor (script: seq<CommitOutcome>)
      ensures disk == EMPTY_DURABLE && offered == EMPTY_DURABLE && this.script == script
    {
      disk, offered, this.script := EMPTY_DURABLE, EMPTY_DURABLE, script;
    }

    /** The same store in a new session: what it holds, without the ids that only the model has. */
    method Reopen(script: seq<CommitOutcome>)
      modifies this
      ensures disk == Recovery.Stored(old(disk)) && offered == disk && this.script == script
    {
      disk := Recovery.Stored(disk);
      offered, this.script := disk, script;
    }

    method Commit(d: Durable) returns (outcome: CommitOutcome)
      modifies this
      ensures outcome == if old(script) == [] then Committed else old(script)[0]
      ensures script == if old(script) == [] then [] else old(script)[1..]
      ensures offered == d
      ensures disk == if outcome == Committed || outcome == Indeterminate(true) then d else old(disk)
    {
      outcome := Committed;
      if script != [] {
        outcome, script := script[0], script[1..];
      }
      offered := d;
      if outcome == Committed || outcome == Indeterminate(true) {
        disk := d;
      }
    }
  }

  class LiveKernel {
    var registry: Registry
    var ledger: RunLedger
    var broker: Broker
    var artifacts: map<ArtifactId, Artifact>
    var handlers: map<AppId, set<CapName>>
    var pending: map<InvId, Pending>
    var flags: set<InvId>
    var tokens: map<InvId, Token>
    var recovery: bool
    var nextId: nat
    var nextInv: InvId
    const store: Store

    /** The kernel value this object stands for. */
    function View(): Kernel
      reads this, store
    {
      Kernel(registry, ledger, broker, artifacts, handlers, pending, flags, tokens, recovery,
             store.disk, store.offered, store.script, nextId, nextInv)
    }

    constructor (script: seq<CommitOutcome>)
      ensures View() == Init(script) && fresh(store)
    {
      registry, ledger, broker, artifacts, handlers := map[], EMPTY_LEDGER, NO_GRANTS, map[], map[];
      pending, flags, tokens, recovery, nextId, nextInv := map[], {}, map[], false, 0, 1;
      store := new Store(script);
    }

    // ----- Committing -----

    method CommitParts(d: Durable) returns (ok: bool)
      modifies this`recovery, store
      ensures (View(), ok) == Offer(old(View()), d)
    {
      if recovery {
        return false;
      }
      var outcome := store.Commit(d);
      match outcome
      case Committed => ok := true;
      case NotCommitted => ok := false;
      case Indeterminate(_) =>
        recovery := true;
        ok := false;
    }

    method RecordBatch(events: seq<Record>) returns (ok: bool)
      modifies this`recovery, this`ledger, store
      ensures (View(), ok) == Write(old(View()), events)
    {
      var staged := AppendBatch(ledger, events);
      if staged.None? {
        return false;
      }
      ok := CommitParts(Durable(registry, broker, staged.value.records, artifacts));
      if ok {
        ledger := staged.value;
      }
    }

    // ----- Pending invocations -----

    method CancellationEvents(ids: set<InvId>) returns (events: seq<Record>)
      ensures events == Close(View(), ids)
    {
      events := [];
      for id := 0 to nextInv
        invariant events == Cancellations(pending, InOrder(ids * pending.Keys, id))
      {
        ghost var before := InOrder(ids * pending.Keys, id);
        if id in pending && id in ids {
          events := events + [Record(Cancelled(pending[id].run, pending[id].slot), id)];
          assert InOrder(ids * pending.Keys, id + 1) == before + [id];
        } else {
          assert InOrder(ids * pending.Keys, id + 1) == before;
        }
      }
    }

    method RemovePending(ids: set<InvId>)
      modifies this`pending, this`flags
      ensures View() == Forget(old(View()), ids)
    {
      var rest := ids * pending.Keys;
      ghost var s := View();
      while rest != {}
        invariant rest <= ids * s.pending.Keys
        invariant pending == s.pending - (ids - rest)
        invariant flags == s.flags + (ids * s.pending.Keys - rest)
        decreases rest
      {
        var id :| id in rest;
        pending, flags, rest := pending - {id}, flags + {id}, rest - {id};
      }
    }

    method ReapCancelledPending(now: Time) returns (ok: bool)
      modifies this`recovery, this`ledger, this`pending, store
      ensures (View(), ok) == A.Reap(old(View()), now)
    {
      var due := PendingDue(View(), now);
      if due == {} {
        return true;
      }
      var events := CancellationEvents(due);
      ok := RecordBatch(events);
      if ok {
        pending := pending - due;
      }
    }

    method CancelPendingInvocationsForRun(run: RunId)
      modifies this`flags
      ensures View() == A.CancelRun(old(View()), run)
    {
      var before := flags;
      ghost var s := View();
      var todo := pending.Keys;
      while todo != {}
        invariant todo <= pending.Keys
        invariant flags == before + (set i | i in pending && i !in todo && pending[i].run == run)
        decreases todo
      {
        var i :| i in todo;
        if pending[i].run == run {
          flags := flags + {i};
        }
        todo := todo - {i};
      }
      assert PendingOfRun(s, run) == set i | i in pending && pending[i].run == run;
    }

    // ----- Runs -----

    method StartRun(app: AppId, parent: Option<RunId>) returns (r: Reply)
      modifies this`recovery, this`ledger, this`nextId, store
      ensures (View(), r) == A.StartRun(old(View()), app, parent)
    {
      if app !in registry {
        return Failure(UnknownApp);
      }
      if parent.Some? {
        if parent.value !in ledger.runs {
          return Failure(UnknownRun);
        }
        if !ledger.runs[parent.value].active {
          return Failure(RunAlreadyEnded);
        }
        if ledger.runs[parent.value].app != app {
          return Failure(AttributionMismatch);
        }
      }
      var run := nextId;
      nextId := nextId + 1;
      var ok := RecordBatch([Record(RunStarted(run, app, parent), 0)]);
      r := if ok then RunOpened(run) else Failure(Durability);
    }

    method EndRun(run: RunId, how: RunEnd) returns (r: Reply)
      modifies this`recovery, this`ledger, this`pending, this`flags, store
      ensures (View(), r) == A.EndRun(old(View()), run, how)
    {
      if run !in ledger.runs {
        return Failure(UnknownRun);
      }
      if !ledger.runs[run].active {
        return Failure(RunAlreadyEnded);
      }
      var ids := PendingOfRun(View(), run);
      var events := CancellationEvents(ids);
      var ok := RecordBatch(events + Ends([run], how));
      if !ok {
        return Failure(Durability);
      }
      RemovePending(ids);
      r := Done;
    }

    // ----- The action path -----

    method PrepareInvocation(a: A.Attempt, direct: bool, t: Clock) returns (r: Reply)
      modifies this, store
      ensures (View(), r) == A.Prepare(old(View()), a, direct, t)
    {
      var reaped := ReapCancelledPending(t.now);
      if !reaped {
        return Failure(Durability);
      }
      var obstacle := A.Inadmissible(View(), a);
      if obstacle.Some? {
        return Failure(obstacle.value);
      }
      var app := ledger.runs[a.run].app;
      var check := Check(broker, t.wall, app, a.slot);
      if check.Denied? {
        var ok := RecordBatch([Record(Refused(a.run, a.slot, check.reason), 0)]);
        return if ok then Refusal(ByDenial(check.reason)) else Failure(Durability);
      }
      r := Reserve(a, direct, app, check.grant, t);
    }

    method Reserve(a: A.Attempt, direct: bool, app: AppId, grant: Grant, t: Clock) returns (r: Reply)
      requires A.Declares(registry, a.slot.cap)
      modifies this, store
      ensures (View(), r) == A.Open(old(View()), a, direct, app, grant, t)
    {
      hide Write;
      if !A.Bound(handlers, a.slot.cap) {
        return Failure(HandlerNotBound);
      }
      if grant.condition == Notify && !direct && !a.noticeOk {
        return Failure(NoticeFailed);
      }
      var key, id := Key(a.slot, grant.id), nextInv;
      var prompted := A.NeedsPrompt(View(), a, direct, grant);
      var ok := RecordBatch([Record(if prompted then ApprovalRequested(a.run, key) else Invoked(a.run, key), id)]);
      if !ok {
        return Failure(Durability);
      }
      nextInv := nextInv + 1;
      pending := pending[id := Pending(a.run, app, a.slot, grant, registry[a.slot.cap.provider], t.now + a.timeout, false)];
      tokens := tokens[id := Prepared(prompted)];
      r := WorkPrepared(id, prompted);
    }

    method PrepareSurfaceAction(app: AppId, a: A.Attempt, t: Clock) returns (r: Reply)
      modifies this, store
      ensures (View(), r) == A.SurfaceAction(old(View()), app, a, t)
    {
      r := StartRun(app, None);
      if !r.RunOpened? {
        return;
      }
      var run := r.run;
      r := PrepareInvocation(a.(run := run), app == a.slot.cap.provider, t);
      if r.Failure? {
        // The run must not outlive the action it was started for.
        var _ := EndRun(run, RunFailed);
      }
    }

    /** Refuse further durable work after a consumed token's transition failed. */
    method ConsumePending(id: InvId, ok: bool)
      modifies this`pending, this`recovery
      ensures View() == A.Consume(old(View()), id, ok)
    {
      if !ok {
        recovery := true;
      }
      pending := pending - {id};
    }

    method FinalizeCancelled(id: InvId, v: A.Verdict) returns (r: Reply)
      requires id in pending
      modifies this`recovery, this`ledger, this`pending, this`flags, store
      ensures (View(), r) == A.CloseStale(old(View()), id, v)
    {
      var p := pending[id];
      if v.RunGone? {
        ConsumePending(id, false);
        return Failure(RunAlreadyEnded);
      }
      if v.Stopped? {
        flags := flags + {id};
      }
      var e := if v.NotGranted? then Refused(p.run, p.slot, v.reason) else Cancelled(p.run, p.slot);
      var ok := RecordBatch([Record(e, id)]);
      ConsumePending(id, ok);
      r := if !ok then Failure(Durability) else if v.NotGranted? then Refusal(ByDenial(v.reason)) else Refusal(ByCancellation);
    }

    method DispatchWork(id: InvId, t: Clock) returns (r: Reply)
      requires id in pending
      modifies this`recovery, this`ledger, this`pending, this`flags, this`tokens, store
      ensures (View(), r) == A.Dispatch(old(View()), id, t)
    {
      var p, v := pending[id], A.Revalidate(View(), id, t);
      if !v.Live? {
        r := FinalizeCancelled(id, v);
        tokens, flags := tokens - {id}, flags + {id};
        return;
      }
      if p.grant.condition == RequiresApproval {
        var ok := RecordBatch([Record(Invoked(p.run, p.Key()), id)]);
        if !ok {
          ConsumePending(id, false);
          tokens, flags := tokens - {id}, flags + {id};
          return Failure(Durability);
        }
      }
      if !A.Bound(handlers, p.slot.cap) {
        tokens, flags := tokens - {id}, flags + {id};
        return Failure(HandlerNotBound);
      }
      pending := pending[id := p.(authorized := true)];
      tokens := tokens[id := Authorized(p.deadline)];
      r := Dispatched;
    }

    method AuthorizeInvocation(id: InvId, t: Clock) returns (r: Reply)
      requires id in tokens && tokens[id].Answered?
      modifies this`recovery, this`ledger, this`pending, this`flags, this`tokens, store
      ensures (View(), r) == A.Authorize(old(View()), id, t)
    {
      var decision := tokens[id].decision;
      tokens := tokens - {id};
      if id !in pending || pending[id].authorized {
        flags := flags + {id};
        assert tokens - {id} == tokens;
        return Failure(Consumed);
      }
      if decision.Some? {
        var p := pending[id];
        var e := if decision.value then ApprovalGranted(p.run, p.Key()) else ApprovalDenied(p.run, p.Key());
        var ok := RecordBatch([Record(e, id)]);
        if !ok || !decision.value {
          ConsumePending(id, ok);
          assert tokens - {id} == tokens;
          flags := flags + {id};
          return if ok then Refusal(ByUser) else Failure(Durability);
        }
      }
      r := DispatchWork(id, t);
    }

    // ----- What happens outside the kernel lock -----

    method AwaitApproval(id: InvId, answer: bool)
      requires id in tokens && tokens[id].Prepared?
      modifies this`tokens
      ensures View() == A.AwaitApproval(old(View()), id, answer)
    {
      tokens := tokens[id := Answered(if tokens[id].prompted then Some(answer) else None)];
    }

    method ExecuteHandler(id: InvId, outcome: Execution, now: Time)
      requires id in tokens && tokens[id].Authorized?
      modifies this`tokens, this`flags
      ensures View() == A.Execute(old(View()), id, outcome, now)
    {
      if id in flags || tokens[id].deadline <= now {
        flags, tokens := flags + {id}, tokens[id := Executed(Skipped)];
      } else {
        tokens := tokens[id := Executed(outcome)];
      }
    }

    method DropToken(id: InvId)
      requires id in tokens
      modifies this`tokens, this`flags
      ensures View() == A.DropToken(old(View()), id)
    {
      tokens, flags := tokens - {id}, flags + {id};
    }

    // ----- Finalization -----

    method FailInvocation(id: InvId) returns (r: Reply)
      requires id in pending
      modifies this`recovery, this`ledger, this`pending, store
      ensures (View(), r) == A.Fail(old(View()), id)
    {
      var p := pending[id];
      var ok := RecordBatch([Record(Failed(p.run, p.Key()), id)]);
      ConsumePending(id, ok);
      r := if ok then InvocationFailed else Failure(Durability);
    }

    /** Stamp the drafts in order, then commit artifacts, their records and the completion at once. */
    method CompleteOutcome(id: InvId, drafts: seq<Draft>) returns (r: Reply)
      requires id in pending
      modifies this`recovery, this`ledger, this`pending, this`artifacts, this`nextId, store
      ensures (View(), r) == A.Complete(old(View()), id, drafts)
    {
      ghost var s := View();
      var p, first := pending[id], nextId;
      var events: seq<Record> := [];
      var produced: map<ArtifactId, Artifact> := map[];
      var ids: seq<ArtifactId> := [];
      for i := 0 to |drafts|
        invariant events == A.ProductionRecords(s, id, drafts)[..i]
        invariant ids == seq(i, k => first + k)
        invariant forall a :: a in produced <==> first <= a < first + i
        invariant forall a | first <= a < first + i :: produced[a] == A.Stamp(s, id, drafts, a)
      {
        var a := first + i;
        produced := produced[a := Artifact(a, drafts[i].kind, p.run, p.slot.cap, p.grant.id, p.slot.cap.provider)];
        events := events + [Record(Produced(p.run, a, drafts[i].kind), id)];
        ids := ids + [a];
      }
      assert produced == A.StampedArtifacts(s, id, drafts);
      assert events == A.ProductionRecords(s, id, drafts);
      assert ids == seq(|drafts|, i => s.nextId + i);
      r := CommitCompletion(id, events + [Record(Completed(p.run, p.Key()), id)], produced, ids);
    }

    method CommitCompletion(id: InvId, events: seq<Record>, produced: map<ArtifactId, Artifact>, ids: seq<ArtifactId>)
      returns (r: Reply)
      requires id in pending
      modifies this`recovery, this`ledger, this`pending, this`artifacts, this`nextId, store
      ensures (View(), r) == A.CommitCompletion(old(View()), id, events, produced, ids)
    {
      hide AppendAll, Offer;
      nextId := nextId + |ids|;
      var staged := AppendBatch(ledger, events);
      if staged.None? {
        ConsumePending(id, false);
        return Failure(Durability);
      }
      var all := artifacts + produced;
      var ok := CommitJointly(staged.value, all);
      ConsumePending(id, ok);
      r := if ok then Finished(ids) else Failure(Durability);
    }

    /** Ledger and artifacts become durable together, and memory follows. */
    method CommitJointly(l: RunLedger, all: map<ArtifactId, Artifact>) returns (ok: bool)
      modifies this`recovery, this`ledger, this`artifacts, store
      ensures var (s1, adopted) := Offer(old(View()), Projection(old(View())).(records := l.records, artifacts := all));
              ok == adopted && View() == if adopted then s1.(ledger := l, artifacts := all) else s1
    {
      hide Offer;
      ok := CommitParts(Durable(registry, broker, l.records, all));
      if ok {
        ledger, artifacts := l, all;
      }
    }

    method FinalizeInvocation(id: InvId, t: Clock) returns (r: Reply)
      requires id in tokens && tokens[id].Executed?
      modifies this, store
      ensures (View(), r) == A.Finalize(old(View()), id, t)
    {
      var x := tokens[id].execution;
      tokens := tokens - {id};
      if id !in pending || !pending[id].authorized {
        return Failure(Consumed);
      }
      var v := A.Revalidate(View(), id, t);
      if !v.Live? {
        r := FinalizeCancelled(id, v);
      } else if x.Skipped? {
        r := FinalizeCancelled(id, A.Stopped);
      } else if x.Returned? && x.resultOk && A.DraftsOk(View(), pending[id].slot.cap.provider, x.drafts) {
        r := CompleteOutcome(id, x.drafts);
      } else {
        r := FailInvocation(id);
      }
    }

    method AbortPending(id: InvId) returns (r: Reply)
      requires id in tokens && (tokens[id].Prepared? || tokens[id].Authorized?)
      modifies this`recovery, this`ledger, this`pending, this`flags, this`tokens, store
      ensures (View(), r) == A.Abort(old(View()), id)
    {
      if id !in pending {
        r := Failure(Consumed);
      } else {
        var p := pending[id];
        var ok := RecordBatch([Record(Cancelled(p.run, p.slot), id)]);
        if ok {
          pending := pending - {id};
        }
        r := if ok then Refusal(ByCancellation) else Failure(Durability);
      }
      tokens, flags := tokens - {id}, flags + {id};
    }

    // ----- Grants -----

    method CommitGrant(holder: AppId, q: Request, approved: bool, holderHash: Manifest, providerHash: Manifest, t: Clock)
      returns (r: Reply)
      modifies this`recovery, this`broker, this`nextId, store
      ensures (View(), r) == L.CommitGrant(old(View()), holder, q, approved, holderHash, providerHash, t)
    {
      var scope := q.authority.scope;
      if holder !in registry || scope.owner !in registry {
        return Failure(UnknownApp);
      }
      if registry[holder] != holderHash || registry[scope.owner] != providerHash {
        return Failure(Stale);
      }
      if !q.authority.data.Valid() || !q.hasReason {
        return Failure(InvalidRequest);
      }
      if scope.ExactCapability? && scope.cap !in registry[scope.owner].caps {
        return Failure(UndeclaredCapability);
      }
      if !approved {
        return Grants([None]);
      }
      var g := NewGrant(nextId, holder, q.authority, UserAdded, t.wall);
      nextId := nextId + 1;
      var staged := Issue(broker, g);
      var ok := CommitParts(Durable(registry, staged, ledger.records, artifacts));
      if !ok {
        return Failure(Durability);
      }
      broker := staged;
      r := Grants([Some(g)]);
    }

    method RevokeGrants(ids: set<GrantId>) returns (r: Reply)
      modifies this`recovery, this`broker, this`flags, store
      ensures (View(), r) == L.RevokeAll(old(View()), ids)
    {
      var staged := broker.(revoked := broker.revoked + ids);
      var ok := CommitParts(Durable(registry, staged, ledger.records, artifacts));
      if !ok {
        return Failure(Durability);
      }
      broker := staged;
      flags := flags + PendingUnder(View(), ids);
      r := Done;
    }

    method RevokeGrant(id: GrantId) returns (r: Reply)
      modifies this`recovery, this`broker, this`flags, store
      ensures (View(), r) == L.RevokeGrant(old(View()), id)
    {
      var found := RecoveryCheck.FindGrant(broker.grants, id);
      if found.None? {
        return Failure(UnknownGrant);
      }
      r := RevokeGrants({id});
    }

    method RevokeGrantsForResource(resource: ResourceId) returns (r: Reply)
      modifies this`recovery, this`broker, this`flags, store
      ensures (View(), r) == L.RevokeGrantsForResource(old(View()), resource)
    {
      var ids := GrantsOver(broker, resource);
      if ids == {} {
        return Done;
      }
      r := RevokeGrants(ids);
    }

    // ----- App lifecycle -----

    method CommitInstall(p: L.Plan, eventsApproved: bool, decisions: seq<bool>, t: Clock) returns (r: Reply)
      modifies this, store
      ensures (View(), r) == L.CommitInstall(old(View()), p, eventsApproved, decisions, t)
    {
      var m := p.manifest;
      if !L.HashesCurrent(registry, p.hashes) {
        return Failure(Stale);
      }
      if !p.mode.Fresh? && m.app !in registry {
        return Failure(UnknownApp);
      }
      if m.app in handlers {
        return Failure(Stale);
      }
      if L.HashOf(registry, m.app) != (match p.mode case Fresh => None case Rebind => Some(m) case Replace(h) => Some(h)) {
        return Failure(Stale);
      }
      if !p.mode.Rebind? && !m.LocallyValid() {
        return Failure(InvalidManifest);
      }
      if !L.RequestsOk(registry, m, p.mode.Rebind?) {
        return Failure(InvalidRequest);
      }
      if !p.mode.Rebind? && !eventsApproved {
        return Failure(SubscriptionDenied);
      }
      if |decisions| != |p.prompts| {
        return Failure(Stale);
      }
      r := AdoptInstall(p, decisions, t);
    }

    method AdoptInstall(p: L.Plan, decisions: seq<bool>, t: Clock) returns (r: Reply)
      modifies this, store
      ensures (View(), r) == L.Adopt(old(View()), p, decisions, t)
    {
      var m := p.manifest;
      var q := Round(m.app, p.origin, p.prompts, decisions, t.wall);
      var staged, results, issuedAny, next :=
        ReconcileManifestGrants(L.StagedBroker(View(), p), L.Authorities(m.requests), q, nextId);
      if p.mode.Rebind? && !issuedAny {
        handlers := handlers[m.app := m.caps.Keys];
        return Grants(results);
      }
      r := AdoptCandidate(p, Reconciled(staged, results, next));
    }

    /** Offer registry, grants and closed work as one candidate, and switch over once it is durable. */
    method AdoptCandidate(p: L.Plan, c: Reconciled) returns (r: Reply)
      modifies this, store
      ensures (View(), r) == L.AdoptStaged(old(View()), p, c)
    {
      hide AppendAll, Offer, Forget, L.StagedClose, L.ClosedWork;
      var app, caps := p.manifest.app, p.manifest.caps.Keys;
      var closing, closed := L.StagedClose(View(), p), L.ClosedWork(View(), p);
      var l := AppendBatch(ledger, closing);
      nextId := c.nextId;
      if l.None? {
        return Failure(RunAlreadyEnded);
      }
      var candidate := registry[app := p.manifest];
      var ok := CommitParts(Durable(candidate, c.broker, l.value.records, artifacts));
      if !ok {
        return Failure(Durability);
      }
      r := Grants(c.results);
      SwitchOver(candidate, c.broker, l.value, handlers[app := caps], closed);
    }

    method SwitchOver(registry: Registry, broker: Broker, ledger: RunLedger, handlers: map<AppId, set<CapName>>, closed: set<InvId>)
      modifies this`registry, this`broker, this`ledger, this`handlers, this`pending, this`flags
      ensures View() == Forget(old(View()).(registry := registry, broker := broker, ledger := ledger, handlers := handlers), closed)
    {
      hide Forget;
      this.registry, this.broker, this.ledger, this.handlers := registry, broker, ledger, handlers;
      RemovePending(closed);
    }

    method UpgradeInPlace(m: Manifest, offered: set<CapName>) returns (r: Reply)
      modifies this`recovery, this`registry, this`handlers, store
      ensures (View(), r) == L.Upgrade(old(View()), m, offered)
    {
      if offered != m.caps.Keys {
        return Failure(BindingMismatch);
      }
      if !L.RequestsOk(registry, m, true) {
        return Failure(InvalidRequest);
      }
      if m.app !in registry {
        return Failure(UnknownApp);
      }
      if !m.LocallyValid() {
        return Failure(InvalidManifest);
      }
      if !registry[m.app].SameUpgradeContract(m) {
        return Failure(ContractChanged);
      }
      var ok := CommitParts(Durable(registry[m.app := m], broker, ledger.records, artifacts));
      if !ok {
        return Failure(Durability);
      }
      registry, handlers := registry[m.app := m], handlers[m.app := m.caps.Keys];
      r := Done;
    }

    method Uninstall(app: AppId) returns (r: Reply)
      modifies this, store
      ensures (View(), r) == L.Uninstall(old(View()), app)
    {
      hide AppendAll, Offer, Forget, Close, PendingOfApp, Ends, InOrder, ActiveRuns, RevokeApp;
      if app !in registry {
        return Failure(UnknownApp);
      }
      var ids := PendingOfApp(View(), app);
      var events := CancellationEvents(ids);
      var l := AppendBatch(ledger, events + Ends(InOrder(ActiveRuns(ledger.runs, app), nextId), RunCancelled));
      if l.None? {
        return Failure(RunAlreadyEnded);
      }
      var staged := RevokeApp(broker, app);
      var ok := CommitParts(Durable(registry - {app}, staged, l.value.records, artifacts));
      if !ok {
        return Failure(Durability);
      }
      SwitchOver(registry - {app}, staged, l.value, handlers - {app}, ids);
      r := Done;
    }

    // ----- Restarting -----

    /** A new session over what the store holds. */
    method TakeOver(script: seq<CommitOutcome>)
      modifies this, store
      ensures View() == Recovery.Loaded(old(store.disk), script, old(nextId))
    {
      hide RunsOf;
      var d := store.disk;
      store.Reopen(script);
      registry, ledger, broker, artifacts := d.registry, RunLedger(store.disk.records, RunsOf(d.records)), d.broker, d.artifacts;
      handlers, pending, flags, tokens, recovery, nextInv := map[], map[], {}, map[], false, 1;
    }

    /** Check what the store holds, take it over, and close what was left open. */
    method Restart(script: seq<CommitOutcome>) returns (r: Reply)
      modifies this, store
      ensures (View(), r) == R.Restart(old(View()), script)
    {
      hide Recovery.Bootable, Write, ActionLog.Replay, Recovery.ClosingEvents, Recovery.Untag;
      var runs, actions := RecoveryCheck.CheckStored(store.disk);
      TakeOver(script);
      var up := runs.Some?;
      if up && Recovery.AllActive(ledger.runs) != {} {
        up := RecordBatch(Recovery.ClosingEvents(ledger.runs, actions, nextId));
      }
      if !up {
        recovery := true;
      }
      r := if up then Done else Failure(Durability);
    }

    // ----- Whole histories -----

    /** Any one call; a call that its caller's tokens do not allow is skipped. */
    method Perform(c: R.Call)
      modifies this, store
      ensures View() == R.Step(old(View()), c)
    {
      if !R.Enabled(View(), c) {
        return;
      }
      var action := PerformAction(c);
      if !action {
        PerformLifecycle(c);
      }
    }

    method PerformAction(c: R.Call) returns (done: bool)
      requires R.Enabled(View(), c)
      modifies this, store
      ensures done ==> View() == R.Apply(old(View()), c).0
      ensures !done ==> View() == old(View()) && (R.IsLifecycle(c) || c.DoRestart?)
    {
      hide A.StartRun, A.EndRun, A.Prepare, A.SurfaceAction, A.Authorize, A.Finalize, A.Abort, A.Execute, A.AwaitApproval,
           A.DropToken, A.CancelRun;
      done := true;
      var r: Reply;
      match c {
        case DoStartRun(app, parent) => r := StartRun(app, parent);
        case DoEndRun(run, how) => r := EndRun(run, how);
        case DoPrepare(a, t) => r := PrepareInvocation(a, false, t);
        case DoSurfaceAction(app, a, t) => r := PrepareSurfaceAction(app, a, t);
        case DoAwaitApproval(id, answer) => AwaitApproval(id, answer);
        case DoAuthorize(id, t) => r := AuthorizeInvocation(id, t);
        case DoExecute(id, outcome, t) => ExecuteHandler(id, outcome, t.now);
        case DoFinalize(id, t) => r := FinalizeInvocation(id, t);
        case DoAbort(id) => r := AbortPending(id);
        case DoDropToken(id) => DropToken(id);
        case DoCancelRun(run) => CancelPendingInvocationsForRun(run);
        case _ => done := false;
      }
    }

    method PerformLifecycle(c: R.Call)
      requires R.Enabled(View(), c) && (R.IsLifecycle(c) || c.DoRestart?)
      modifies this, store
      ensures View() == R.Apply(old(View()), c).0
    {
      hide A.EndRun, L.CommitGrant, L.RevokeGrant, L.RevokeGrantsForResource, L.CommitInstall, L.Upgrade, L.Uninstall, R.Restart;
      var r: Reply;
      match c {
        case DoEndRun(run, how) => r := EndRun(run, how);
        case DoGrant(h, q, approved, hh, ph, t) => r := CommitGrant(h, q, approved, hh, ph, t);
        case DoRevoke(id) => r := RevokeGrant(id);
        case DoRevokeResource(resource) => r := RevokeGrantsForResource(resource);
        case DoInstall(p, events, decisions, t) => r := CommitInstall(p, events, decisions, t);
        case DoUpgrade(m, offered) => r := UpgradeInPlace(m, offered);
        case DoUninstall(app) => r := Uninstall(app);
        case DoRestart(script) => r := Restart(script);
      }
    }

    /** Driving the object through calls is a history, and keeps the invariant. */
    method Drive(calls: seq<R.Call>)
      modifies this, store
      ensures View() == R.Run(old(View()), calls)
      ensures KernelInvariant.Inv(old(View())) ==> KernelInvariant.Inv(View())
    {
      hide R.Step, KernelInvariant.Inv;
      ghost var s := View();
      for i := 0 to |calls|
        invariant View() == R.Run(s, calls[..i])
      {
        Perform(calls[i]);
        assert calls[..i + 1][..i] == calls[..i];
      }
      assert calls[..|calls|] == calls;
      if KernelInvariant.Inv(s) {
        R.RunInv(s, calls);
      }
    }
  }

  /** What a caller can rely on in any session of the object, over any number of restarts. */
  ghost predicate Sound(k: LiveKernel)
    reads k, k.store
  {
    && KernelInvariant.Inv(k.View())
    && (k.store.disk == Projection(k.View()) || (k.recovery && k.store.disk == k.store.offered))
    && Provenance.Restorable(k.store.disk)
    && (forall id: InvId | 1 <= id < k.nextInv ::
          && ActionLog.Terminals(k.ledger.records, id) <= 1
          && (id in k.pending ==> ActionLog.Terminals(k.ledger.records, id) == 0)
          && (!k.recovery && id !in k.pending ==> ActionLog.Terminals(k.ledger.records, id) == 1))
  }

  /** A new kernel object driven through any calls. */
  method Session(script: seq<CommitOutcome>, calls: seq<R.Call>) returns (k: LiveKernel)
    ensures fresh(k) && fresh(k.store) && k.View() == R.Run(Init(script), calls) && Sound(k)
  {
    hide KernelInvariant.Inv, R.Run, Init, Provenance.Restorable, ActionLog.Terminals;
    k := new LiveKernel(script);
    k.Drive(calls);
    R.ReachableInv(script, calls);
    R.DurableRefinement(script, calls);
    forall id: InvId | 1 <= id < k.nextInv
      ensures ActionLog.Terminals(k.ledger.records, id) <= 1
      ensures id in k.pending ==> ActionLog.Terminals(k.ledger.records, id) == 0
      ensures !k.recovery && id !in k.pending ==> ActionLog.Terminals(k.ledger.records, id) == 1
    {
      R.Conservation(script, calls, id);
    }
  }
}
