/**
  Granting, revoking, installing, replacing, upgrading and uninstalling keep the
  invariant, whatever the store answers.
 */
module LifecycleInvariant {
  import opened Basics
  import opened Domain
  import opened Ledger
  import opened Broker
  import opened ActionLog
  import opened KernelState
  import opened Lifecycle
  import opened Provenance
  import opened KernelInvariant
  import opened ActionInvariant

  // ----- One staged candidate -----

  /** Work and runs a lifecycle step closes: all pending work of those runs is closed with them. */
  datatype Closing = Closing(ids: set<InvId>, runs: seq<RunId>)

  const KEEP := Closing({}, [])

  predicate ClosingOk(s: Kernel, c: Closing) {
    Covers(s.pending, c.ids, c.runs) && Distinct(c.runs) && forall r | r in c.runs :: Active(s.ledger.runs, r)
  }

  function ClosingRecords(s: Kernel, c: Closing): seq<Record> {
    Close(s, c.ids) + Ends(c.runs, RunCancelled)
  }

  /** Registry and grants as staged, and the grants of before still there. */
  predicate AuthorityOk(s: Kernel, registry: Registry, broker: Broker, nextId: nat) {
    && ManifestsOk(registry) && GrantsOk(broker) && LiveInstalled(registry, broker) && IdsBelow(broker, nextId)
    && s.nextId <= nextId && (forall g | g in s.broker.grants :: g in broker.grants)
  }

  function Staged(s: Kernel, c: Closing, registry: Registry, broker: Broker, nextId: nat): Kernel
    requires AppendAll(s.ledger, ClosingRecords(s, c)).Some?
  {
    s.(registry := registry, broker := broker, ledger := AppendAll(s.ledger, ClosingRecords(s, c)).value,
       pending := s.pending - c.ids, nextId := nextId)
  }

  lemma StagedState(s: Kernel, c: Closing, registry: Registry, broker: Broker, nextId: nat)
    requires Inv(s) && ClosingOk(s, c) && AuthorityOk(s, registry, broker, nextId)
    ensures AppendAll(s.ledger, ClosingRecords(s, c)).Some?
    ensures var m := Staged(s, c, registry, broker, nextId); StateOk(m.ledger, Projection(m), nextId)
  {
    hide BookOk, HandlersOk, PendingOk, DiskOk, AllBacked;
    var rs := ClosingRecords(s, c);
    ClosingBatch(s, c.ids, c.runs, RunCancelled);
    var m := Staged(s, c, registry, broker, nextId);
    AppendAllGrows(s.ledger, rs);
    ValidatedAppend(Projection(s), Projection(m), rs);
  }

  /** The staged memory, with handlers for it, satisfies the invariant. */
  lemma StagedMemory(s: Kernel, c: Closing, registry: Registry, broker: Broker, nextId: nat, handlers: Handlers)
    requires Inv(s) && !s.recovery && ClosingOk(s, c) && AuthorityOk(s, registry, broker, nextId)
    requires HandlersOk(registry, handlers)
    requires PendingOk(registry, handlers, Deactivate(s.ledger.runs, Elems(c.runs)), broker.grants, s.pending - c.ids)
    ensures AppendAll(s.ledger, ClosingRecords(s, c)).Some?
    ensures MemoryOk(Staged(s, c, registry, broker, nextId).(handlers := handlers))
  {
    hide StateOk, Restorable, Below, HandlersOk, AuthorityOk, PendingOk, BookMatches;
    StagedState(s, c, registry, broker, nextId);
    ClosingBatch(s, c.ids, c.runs, RunCancelled);
    BookCloseAll(Track(s.ledger.records, false).value, s.pending, s.tokens, s.nextInv, c.ids);
  }

  lemma StagedRestorable(s: Kernel, c: Closing, registry: Registry, broker: Broker, nextId: nat)
    requires Inv(s) && ClosingOk(s, c) && AuthorityOk(s, registry, broker, nextId)
    ensures AppendAll(s.ledger, ClosingRecords(s, c)).Some?
    ensures var d := Projection(Staged(s, c, registry, broker, nextId));
            Restorable(d) && Below(d, nextId) && (!s.recovery ==> Track(d.records, false).Some?)
  {
    hide Inv, Restorable, Below, AuthorityOk;
    StagedState(s, c, registry, broker, nextId);
    ClosingBatch(s, c.ids, c.runs, RunCancelled);
  }

  /** Offering the candidate: it is adopted with its handlers, or memory stays. */
  lemma StagedInv(s: Kernel, c: Closing, registry: Registry, broker: Broker, nextId: nat, handlers: Handlers, flags: set<InvId>)
    requires Inv(s) && ClosingOk(s, c) && AuthorityOk(s, registry, broker, nextId)
    requires HandlersOk(registry, handlers)
    requires PendingOk(registry, handlers, Deactivate(s.ledger.runs, Elems(c.runs)), broker.grants, s.pending - c.ids)
    ensures AppendAll(s.ledger, ClosingRecords(s, c)).Some?
    ensures var m := Staged(s, c, registry, broker, nextId).(handlers := handlers, flags := flags);
            var (s1, ok) := Offer(s.(nextId := nextId), Projection(m));
            Inv(if ok then m.(disk := s1.disk, offered := s1.offered, script := s1.script) else s1)
  {
    hide StateOk, Restorable, Below, HandlersOk, AuthorityOk, PendingOk, BookOk;
    StagedRestorable(s, c, registry, broker, nextId);
    assert s.nextId <= nextId by { MoreIdsStaged(s, registry, broker, nextId); }
    MoreIds(s, nextId);
    var m0 := Staged(s, c, registry, broker, nextId).(handlers := handlers);
    var m := m0.(flags := flags);
    assert Projection(m) == Projection(Staged(s, c, registry, broker, nextId));
    var (s1, ok) := Offer(s.(nextId := nextId), Projection(m));
    if ok {
      StagedMemory(s, c, registry, broker, nextId, handlers);
      SameBook(m0, m);
      OfferAdopted(s.(nextId := nextId), m, m.(disk := s1.disk, offered := s1.offered, script := s1.script));
    } else {
      OfferFailed(s.(nextId := nextId), Projection(m));
    }
  }

  lemma MoreIdsStaged(s: Kernel, registry: Registry, broker: Broker, nextId: nat)
    requires AuthorityOk(s, registry, broker, nextId)
    ensures s.nextId <= nextId
  {
  }

  lemma SameBook(m0: Kernel, m: Kernel)
    requires BookOk(m0) && m == m0.(flags := m.flags)
    ensures BookOk(m)
  {
  }

  // ----- Grants -----

  lemma KeepInv(s: Kernel, broker: Broker, nextId: nat, flags: set<InvId>)
    requires Inv(s) && AuthorityOk(s, s.registry, broker, nextId)
    ensures var (s1, ok) := Offer(s.(nextId := nextId), Projection(s).(broker := broker));
            Inv(if ok then s1.(broker := broker, flags := flags) else s1)
  {
    hide StateOk, Restorable, Below, HandlersOk, BookOk, ManifestsOk, GrantsOk, LiveInstalled;
    KeepRecords(s);
    assert s.pending - {} == s.pending && Deactivate(s.ledger.runs, Elems([])) == s.ledger.runs;
    StagedInv(s, KEEP, s.registry, broker, nextId, s.handlers, flags);
  }

  lemma KeepRecords(s: Kernel)
    ensures ClosingRecords(s, KEEP) == [] && AppendAll(s.ledger, ClosingRecords(s, KEEP)) == Some(s.ledger)
    ensures ClosingOk(s, KEEP)
  {
    NothingInOrder(s.nextInv);
    assert {} * s.pending.Keys == {};
  }

  lemma {:induction false} NothingInOrder(n: nat)
    ensures InOrder({}, n) == []
  {
    if n > 0 {
      NothingInOrder(n - 1);
    }
  }

  lemma CurrentAuthority(s: Kernel)
    requires Inv(s)
    ensures AuthorityOk(s, s.registry, s.broker, s.nextId)
  {
  }

  lemma CommitGrantInv(s: Kernel, holder: AppId, q: Request, approved: bool,
                       holderHash: Manifest, providerHash: Manifest, t: Clock)
    requires Inv(s)
    ensures Inv(CommitGrant(s, holder, q, approved, holderHash, providerHash, t).0)
  {
    hide Inv, AuthorityOk;
    var g := NewGrant(s.nextId, holder, q.authority, UserAdded, t.wall);
    if g.Valid() && holder in s.registry && q.authority.scope.owner in s.registry {
      CurrentAuthority(s);
      IssueAuthority(s, s.registry, s.broker, s.nextId, g);
      KeepInv(s, Issue(s.broker, g), s.nextId + 1, s.flags);
      MoreIds(s, s.nextId + 1);
    }
  }

  lemma IssueAuthority(s: Kernel, registry: Registry, b: Broker, nextId: nat, g: Grant)
    requires AuthorityOk(s, registry, b, nextId) && g.id == nextId
    requires g.Valid() && g.holder in registry && g.scope.owner in registry
    ensures AuthorityOk(s, registry, Issue(b, g), nextId + 1)
  {
  }

  lemma RevokeAllInv(s: Kernel, ids: set<GrantId>)
    requires Inv(s) && forall id | id in ids :: exists g :: g in s.broker.grants && g.id == id
    ensures Inv(RevokeAll(s, ids).0)
  {
    hide Inv;
    var b := s.broker.(revoked := s.broker.revoked + ids);
    CurrentAuthority(s);
    RevokeAuthority(s, s.registry, s.registry, s.broker, s.nextId, ids);
    KeepInv(s, b, s.nextId, s.flags + PendingUnder(s, ids));
  }

  /** Revoking can only help: fewer grants are live, so fewer apps must be installed. */
  lemma RevokeAuthority(s: Kernel, registry: Registry, registry': Registry, b: Broker, nextId: nat, ids: set<GrantId>)
    requires AuthorityOk(s, registry, b, nextId) && ManifestsOk(registry')
    requires forall id | id in ids :: exists g :: g in b.grants && g.id == id
    requires forall g | g in b.grants && g.id !in b.revoked && g.id !in ids :: g.holder in registry' && g.scope.owner in registry'
    ensures AuthorityOk(s, registry', b.(revoked := b.revoked + ids), nextId)
  {
  }

  lemma RevokeInv(s: Kernel, id: GrantId, r: ResourceId)
    requires Inv(s)
    ensures Inv(RevokeGrant(s, id).0) && Inv(RevokeGrantsForResource(s, r).0)
  {
    hide Inv;
    if exists g :: g in s.broker.grants && g.id == id {
      RevokeAllInv(s, {id});
    }
    RevokeAllInv(s, GrantsOver(s.broker, r));
  }

  // ----- Closing an app's work -----

  function ClosingApp(s: Kernel, app: AppId): Closing {
    Closing(PendingOfApp(s, app), InOrder(ActiveRuns(s.ledger.runs, app), s.nextId))
  }

  lemma ClosingAppOk(s: Kernel, app: AppId)
    requires Inv(s)
    ensures ClosingOk(s, ClosingApp(s, app)) && forall r :: r in ClosingApp(s, app).runs <==> r in ActiveRuns(s.ledger.runs, app)
  {
    hide Restorable, HandlersOk, BookOk, DiskOk, WellFormed;
    var c := ClosingApp(s, app);
    assert forall r | r in s.ledger.runs :: r < s.nextId;
    forall id | id in s.pending && s.pending[id].run in c.runs ensures id in c.ids {
      EntryFacts(s, id);
    }
  }

  /** Work of other apps survives the app's removal or replacement. */
  lemma OthersSurvive(s: Kernel, app: AppId, registry: Registry, handlers: Handlers, grants: seq<Grant>)
    requires Inv(s)
    requires forall a | a in s.registry && a != app :: a in registry
    requires forall a | a in s.handlers && a != app :: a in handlers && handlers[a] == s.handlers[a]
    requires forall g | g in s.broker.grants :: g in grants
    ensures var c := ClosingApp(s, app);
            PendingOk(registry, handlers, Deactivate(s.ledger.runs, Elems(c.runs)), grants, s.pending - c.ids)
  {
    hide Inv;
    ClosingAppOk(s, app);
    var c := ClosingApp(s, app);
    var pending' := s.pending - c.ids;
    forall id | id in pending'
      ensures EntryOk(registry, handlers, Deactivate(s.ledger.runs, Elems(c.runs)), grants, pending'[id])
    {
      EntryFacts(s, id);
    }
  }

  // ----- Uninstalling -----

  lemma RevokedApp(s: Kernel, app: AppId, registry: Registry)
    requires Inv(s) && ManifestsOk(registry) && forall a | a in s.registry && a != app :: a in registry
    ensures AuthorityOk(s, registry, RevokeApp(s.broker, app), s.nextId)
  {
    hide Inv;
    CurrentAuthority(s);
    RevokeAuthority(s, s.registry, registry, s.broker, s.nextId,
                    set g | g in s.broker.grants && (g.holder == app || g.scope.owner == app) :: g.id);
  }

  lemma FewerHandlers(s: Kernel, app: AppId)
    requires Inv(s)
    ensures HandlersOk(s.registry - {app}, s.handlers - {app}) && ManifestsOk(s.registry - {app})
  {
    hide StateOk, PendingOk, BookOk, DiskOk;
    CurrentAuthority(s);
  }

  lemma UninstallInv(s: Kernel, app: AppId)
    requires Inv(s)
    ensures Inv(Uninstall(s, app).0)
  {
    hide Inv, AuthorityOk, ClosingOk, HandlersOk, PendingOk, ManifestsOk;
    var c, registry, broker, handlers := ClosingApp(s, app), s.registry - {app}, RevokeApp(s.broker, app), s.handlers - {app};
    FewerHandlers(s, app);
    RevokedApp(s, app, registry);
    ClosingAppOk(s, app);
    OthersSurvive(s, app, registry, handlers, broker.grants);
    StagedInv(s, c, registry, broker, s.nextId, handlers, s.flags + c.ids * s.pending.Keys);
  }

  // ----- Upgrading in place -----

  lemma UpgradedAuthority(s: Kernel, m: Manifest)
    requires Inv(s) && m.LocallyValid()
    ensures AuthorityOk(s, s.registry[m.app := m], s.broker, s.nextId)
  {
    hide PendingOk, BookOk, DiskOk, HandlersOk;
    CurrentAuthority(s);
  }

  lemma UpgradedHandlers(s: Kernel, m: Manifest)
    requires Inv(s) && m.app in s.registry && s.registry[m.app].SameUpgradeContract(m)
    ensures var handlers := s.handlers[m.app := m.caps.Keys];
            && HandlersOk(s.registry[m.app := m], handlers)
            && PendingOk(s.registry[m.app := m], handlers, s.ledger.runs, s.broker.grants, s.pending)
  {
    hide StateOk, BookOk, DiskOk;
    var registry, handlers := s.registry[m.app := m], s.handlers[m.app := m.caps.Keys];
    assert s.registry[m.app].caps == m.caps;
    forall id | id in s.pending ensures EntryOk(registry, handlers, s.ledger.runs, s.broker.grants, s.pending[id]) {
      EntryFacts(s, id);
    }
  }

  lemma UpgradeInv(s: Kernel, m: Manifest, offered: set<CapName>)
    requires Inv(s)
    ensures Inv(Upgrade(s, m, offered).0)
  {
    hide Inv, AuthorityOk, HandlersOk, PendingOk;
    if m.LocallyValid() && m.app in s.registry && s.registry[m.app].SameUpgradeContract(m) {
      var registry, handlers := s.registry[m.app := m], s.handlers[m.app := m.caps.Keys];
      UpgradedAuthority(s, m);
      UpgradedHandlers(s, m);
      KeepRecords(s);
      assert s.pending - {} == s.pending && Deactivate(s.ledger.runs, Elems([])) == s.ledger.runs;
      StagedInv(s, KEEP, registry, s.broker, s.nextId, handlers, s.flags);
    }
  }

  // ----- Installing -----

  lemma {:induction false} ReconcileAuthority(s: Kernel, registry: Registry, b: Broker, nextId: nat,
                                              requests: seq<Authority>, q: Round)
    requires AuthorityOk(s, registry, b, nextId) && q.app in registry
    requires forall a | a in requests :: a.data.Valid()
    requires forall a | a in q.prompts :: a.scope.owner in registry
    ensures var r := Reconcile(b, requests, q, nextId); AuthorityOk(s, registry, r.broker, r.nextId)
  {
    hide AuthorityOk;
    if requests != [] {
      var n := |requests| - 1;
      ReconcileAuthority(s, registry, b, nextId, requests[..n], q);
      var r := Reconcile(b, requests[..n], q, nextId);
      assert requests[n] in requests;
      if q.Answered(r.broker, requests[n]).None? && q.Approved(requests[n]) {
        IssueAuthority(s, registry, r.broker, r.nextId, q.Grant(r.nextId, requests[n]));
      }
    }
  }

  /** The work an install closes: that of the app it replaces. */
  function InstallClosing(s: Kernel, p: Plan): Closing {
    if p.mode.Replace? then ClosingApp(s, p.manifest.app) else KEEP
  }

  lemma StagedAuthority(s: Kernel, p: Plan, decisions: seq<bool>, t: Clock)
    requires Inv(s) && PlanOk(p) && HashesCurrent(s.registry, p.hashes) && p.manifest.LocallyValid()
    ensures var q := Round(p.manifest.app, p.origin, p.prompts, decisions, t.wall);
            var r := Reconcile(StagedBroker(s, p), Authorities(p.manifest.requests), q, s.nextId);
            AuthorityOk(s, s.registry[p.manifest.app := p.manifest], r.broker, r.nextId)
  {
    hide Inv, AuthorityOk;
    var m := p.manifest;
    var registry := s.registry[m.app := m];
    UpgradedAuthority(s, m);
    if p.mode.Replace? {
      RegistryOk(s);
      RevokedApp(s, m.app, registry);
    }
    var q := Round(m.app, p.origin, p.prompts, decisions, t.wall);
    forall a | a in Authorities(m.requests) ensures a.data.Valid() {
      var i :| 0 <= i < |m.requests| && Authorities(m.requests)[i] == a;
      assert m.requests[i] in m.requests;
    }
    ReconcileAuthority(s, registry, StagedBroker(s, p), s.nextId, Authorities(m.requests), q);
  }

  lemma RegistryOk(s: Kernel)
    requires Inv(s)
    ensures ManifestsOk(s.registry) && HandlersOk(s.registry, s.handlers)
  {
  }

  /** Nothing pending is served by an app without handlers. */
  lemma UnboundServesNothing(s: Kernel, m: Manifest, grants: seq<Grant>)
    requires Inv(s) && m.app !in s.handlers && (m.app in s.registry ==> s.registry[m.app] == m)
    requires forall g | g in s.broker.grants :: g in grants
    ensures PendingOk(s.registry[m.app := m], s.handlers[m.app := m.caps.Keys], s.ledger.runs, grants, s.pending)
  {
    hide Inv;
    var registry, handlers := s.registry[m.app := m], s.handlers[m.app := m.caps.Keys];
    forall id | id in s.pending ensures EntryOk(registry, handlers, s.ledger.runs, grants, s.pending[id]) {
      EntryFacts(s, id);
    }
  }

  lemma InstalledPending(s: Kernel, p: Plan, grants: seq<Grant>)
    requires Inv(s) && p.manifest.app !in s.handlers
    requires p.mode.Replace? || (p.manifest.app in s.registry ==> s.registry[p.manifest.app] == p.manifest)
    requires forall g | g in s.broker.grants :: g in grants
    ensures var m, c := p.manifest, InstallClosing(s, p);
            && ClosingOk(s, c)
            && HandlersOk(s.registry[m.app := m], s.handlers[m.app := m.caps.Keys])
            && PendingOk(s.registry[m.app := m], s.handlers[m.app := m.caps.Keys],
                         Deactivate(s.ledger.runs, Elems(c.runs)), grants, s.pending - c.ids)
  {
    hide Inv, PendingOk, ClosingOk;
    var m := p.manifest;
    RegistryOk(s);
    if p.mode.Replace? {
      ClosingAppOk(s, m.app);
      OthersSurvive(s, m.app, s.registry[m.app := m], s.handlers[m.app := m.caps.Keys], grants);
    } else {
      KeepRecords(s);
      UnboundServesNothing(s, m, grants);
      assert s.pending - {} == s.pending && Deactivate(s.ledger.runs, Elems([])) == s.ledger.runs;
    }
  }

  lemma CommitInstallInv(s: Kernel, p: Plan, eventsApproved: bool, decisions: seq<bool>, t: Clock)
    requires Inv(s) && PlanOk(p)
    ensures Inv(CommitInstall(s, p, eventsApproved, decisions, t).0)
  {
    hide Inv, Adopt;
    var m := p.manifest;
    RegistryOk(s);
    if HashesCurrent(s.registry, p.hashes) && m.app !in s.handlers && m.LocallyValid()
       && HashOf(s.registry, m.app) == (match p.mode case Fresh => None case Rebind => Some(m) case Replace(h) => Some(h))
    {
      AdoptInv(s, p, decisions, t);
    }
  }

  lemma AdoptInv(s: Kernel, p: Plan, decisions: seq<bool>, t: Clock)
    requires Inv(s) && PlanOk(p) && HashesCurrent(s.registry, p.hashes)
    requires p.manifest.LocallyValid() && p.manifest.app !in s.handlers
    requires p.mode.Replace? || (p.manifest.app in s.registry ==> s.registry[p.manifest.app] == p.manifest)
    requires p.mode.Rebind? ==> p.manifest.app in s.registry
    ensures Inv(Adopt(s, p, decisions, t).0)
  {
    hide Inv, AuthorityOk, HandlersOk, PendingOk, ClosingOk, Reconcile, AppendAll, Offer;
    var m := p.manifest;
    var q := Round(m.app, p.origin, p.prompts, decisions, t.wall);
    var r := Reconcile(StagedBroker(s, p), Authorities(m.requests), q, s.nextId);
    StagedAuthority(s, p, decisions, t);
    RebindInv(s, m);
    AdoptedInv(s, p, r.broker, r.nextId);
    ClosesAsStaged(s, p);
  }

  lemma ClosesAsStaged(s: Kernel, p: Plan)
    ensures StagedClose(s, p) == ClosingRecords(s, InstallClosing(s, p))
    ensures ClosedWork(s, p) == InstallClosing(s, p).ids
  {
    KeepRecords(s);
  }

  lemma AdoptedInv(s: Kernel, p: Plan, broker: Broker, nextId: nat)
    requires Inv(s) && p.manifest.app !in s.handlers
    requires p.mode.Replace? || (p.manifest.app in s.registry ==> s.registry[p.manifest.app] == p.manifest)
    requires AuthorityOk(s, s.registry[p.manifest.app := p.manifest], broker, nextId)
    ensures var m, c := p.manifest, InstallClosing(s, p);
            AppendAll(s.ledger, ClosingRecords(s, c)).Some?
            && var l := AppendAll(s.ledger, ClosingRecords(s, c)).value;
            var (s1, ok) := Offer(s.(nextId := nextId), Durable(s.registry[m.app := m], broker, l.records, s.artifacts));
            Inv(if ok
                then s1.(registry := s.registry[m.app := m], broker := broker, ledger := l,
                         handlers := s.handlers[m.app := m.caps.Keys], pending := s.pending - c.ids,
                         flags := s.flags + c.ids * s.pending.Keys)
                else s1)
  {
    hide Inv, AuthorityOk, HandlersOk, PendingOk, ClosingOk, AppendAll;
    var m := p.manifest;
    var c := InstallClosing(s, p);
    GrantsKept(s, s.registry[m.app := m], broker, nextId);
    InstalledPending(s, p, broker.grants);
    StagedInv(s, c, s.registry[m.app := m], broker, nextId, s.handlers[m.app := m.caps.Keys],
              s.flags + c.ids * s.pending.Keys);
  }

  lemma GrantsKept(s: Kernel, registry: Registry, broker: Broker, nextId: nat)
    requires AuthorityOk(s, registry, broker, nextId)
    ensures s.nextId <= nextId && forall g | g in s.broker.grants :: g in broker.grants
  {
  }

  lemma RebindInv(s: Kernel, m: Manifest)
    requires Inv(s) && m.app !in s.handlers
    ensures HashOf(s.registry, m.app) == Some(m) ==> Inv(s.(handlers := s.handlers[m.app := m.caps.Keys]))
  {
    if HashOf(s.registry, m.app) == Some(m) {
      UnboundServesNothing(s, m, s.broker.grants);
      assert s.registry[m.app := m] == s.registry;
    }
  }

  // ----- What the answers of an install mean -----

  /** Whatever grant an install reports is live, held by the app, and over an installed provider. */
  lemma GrantsReported(s: Kernel, p: Plan, decisions: seq<bool>, t: Clock, i: nat)
    requires Inv(s) && PlanOk(p) && HashesCurrent(s.registry, p.hashes)
    requires p.manifest.LocallyValid() && p.manifest.app !in s.handlers
    requires p.mode.Replace? || (p.manifest.app in s.registry ==> s.registry[p.manifest.app] == p.manifest)
    requires p.mode.Rebind? ==> p.manifest.app in s.registry
    requires Adopt(s, p, decisions, t).1.Grants?
    requires i < |Adopt(s, p, decisions, t).1.results| && Adopt(s, p, decisions, t).1.results[i].Some?
    ensures var (s', r) := Adopt(s, p, decisions, t);
            var g := r.results[i].value;
            && g in s'.broker.grants && s'.broker.Live(g, t.wall) && g.holder == p.manifest.app
            && g.scope.owner in s'.registry
  {
    hide Inv, Reconcile, AdoptStaged;
    var m := p.manifest;
    var q := Round(m.app, p.origin, p.prompts, decisions, t.wall);
    var b := StagedBroker(s, p);
    var r := Reconcile(b, Authorities(m.requests), q, s.nextId);
    AdoptInv(s, p, decisions, t);
    StagedIdsBelow(s, p);
    ReconcileProgress(b, Authorities(m.requests), q, s.nextId);
    AdoptedBroker(s, p, r);
    RebindUnchanged(s, p, decisions, t);
    LiveIsInstalled(Adopt(s, p, decisions, t).0, r.results[i].value);
  }

  lemma StagedIdsBelow(s: Kernel, p: Plan)
    requires Inv(s)
    ensures IdsBelow(StagedBroker(s, p), s.nextId)
  {
    hide Inv;
    CurrentAuthority(s);
  }

  lemma AdoptedBroker(s: Kernel, p: Plan, r: Reconciled)
    ensures AdoptStaged(s, p, r).1.Grants? ==> AdoptStaged(s, p, r).0.broker == r.broker
    ensures AdoptStaged(s, p, r).1.Grants? ==> AdoptStaged(s, p, r).1.results == r.results
  {
    hide Offer, AppendAll, StagedClose, ClosedWork;
  }

  /** A rebind that issued nothing has the grants it had. */
  lemma RebindUnchanged(s: Kernel, p: Plan, decisions: seq<bool>, t: Clock)
    requires Inv(s)
    ensures var q := Round(p.manifest.app, p.origin, p.prompts, decisions, t.wall);
            var r := Reconcile(StagedBroker(s, p), Authorities(p.manifest.requests), q, s.nextId);
            p.mode.Rebind? && r.nextId == s.nextId ==> r.broker == s.broker
  {
    hide Inv, Reconcile;
    var q := Round(p.manifest.app, p.origin, p.prompts, decisions, t.wall);
    var r := Reconcile(StagedBroker(s, p), Authorities(p.manifest.requests), q, s.nextId);
    StagedIdsBelow(s, p);
    ReconcileProgress(StagedBroker(s, p), Authorities(p.manifest.requests), q, s.nextId);
    if p.mode.Rebind? && r.nextId == s.nextId {
      assert |r.broker.grants| == |s.broker.grants|;
      assert r.broker.grants == s.broker.grants;
    }
  }

  lemma LiveIsInstalled(s: Kernel, g: Grant)
    requires Inv(s) && g in s.broker.grants && g.id !in s.broker.revoked
    ensures g.holder in s.registry && g.scope.owner in s.registry
  {
    hide BookOk, DiskOk, HandlersOk, PendingOk;
  }
}
