/**
  What granting, installing and upgrading come to, against a store that commits: when
  they succeed, which authority exists afterwards, and that every request of an app is
  answered by the user's decision on it.
 */
module Installing {
  import opened Basics
  import opened Domain
  import opened Ledger
  import opened Broker
  import opened KernelState
  import opened Lifecycle
  import opened KernelInvariant
  import opened ActionInvariant
  import opened LifecycleInvariant
  import opened Reservations
  import opened Coverage
  import opened LastingAuthority

  /** The authority asked for, held by the app, from then on for as long as it was asked. */
  ghost predicate Embodies(g: Grant, holder: AppId, a: Authority, origin: Origin, since: Time) {
    && g.holder == holder && g.scope == a.scope && g.data == a.data && g.condition == a.condition && g.origin == origin
    && g.issuedAt == since
    && forall now: Time :: g.Expired(now) <==> a.duration.ExpiresAfter? && since + a.duration.seconds <= now
  }

  /** The manifest is sound in itself. */
  predicate SoundAlone(m: Manifest) {
    m.schemasOk && forall q | q in m.requests :: WellScoped(q.authority.data)
  }

  /** Every request has a reason, and what it targets is declared: by the app itself, or by the installed provider. */
  predicate SoundAmong(registry: Registry, m: Manifest, absentOk: bool) {
    forall q | q in m.requests ::
      && q.hasReason
      && var scope := q.authority.scope;
      && (scope.owner == m.app ==> scope == AllCapabilities(m.app) || scope.cap in m.caps)
      && (scope.owner != m.app && scope.owner in registry ==> scope.AllCapabilities? || scope.cap in registry[scope.owner].caps)
      && (scope.owner != m.app && scope.owner !in registry ==> absentOk)
  }

  /** The providers' contents are those recorded, absent ones included. */
  predicate ProvidersAsRecorded(registry: Registry, hashes: map<AppId, Option<Manifest>>) {
    forall a | a in hashes :: if a in registry then hashes[a] == Some(registry[a]) else hashes[a] == None
  }

  lemma SoundnessIff(registry: Registry, m: Manifest, absentOk: bool, hashes: map<AppId, Option<Manifest>>)
    ensures m.LocallyValid() <==> SoundAlone(m)
    ensures RequestsOk(registry, m, absentOk) <==> SoundAmong(registry, m, absentOk)
    ensures HashesCurrent(registry, hashes) <==> ProvidersAsRecorded(registry, hashes)
  {
    assert forall q: Request :: q.authority.data.Valid() <==> WellScoped(q.authority.data);
    assert HashesCurrent(registry, hashes) ==> forall a | a in hashes :: hashes[a] == HashOf(registry, a);
    if ProvidersAsRecorded(registry, hashes) {
      forall a | a in hashes ensures hashes[a] == HashOf(registry, a) {
      }
    }
  }

  /** A grant of this very authority, of the same origin and lifetime, that is neither revoked nor expired. */
  predicate Matches(b: Broker, now: Time, g: Grant, app: AppId, a: Authority, origin: Origin) {
    && g in b.grants && g.holder == app && g.scope == a.scope && g.data == a.data && g.condition == a.condition && g.origin == origin
    && (a.duration.NonExpiring? ==> g.expiresAt == None)
    && (a.duration.ExpiresAfter? ==> g.expiresAt == Some(g.issuedAt + a.duration.seconds))
    && g.id !in b.revoked && (g.expiresAt.Some? ==> now < g.expiresAt.value)
  }

  lemma MatchesIff(b: Broker, now: Time, g: Grant, app: AppId, a: Authority, origin: Origin)
    ensures Matches(b, now, g, app, a, origin) <==> g in b.grants && Satisfies(g, app, a, origin) && b.Live(g, now)
  {
  }

  predicate IsIssued(r: Reply) {
    r.Grants? && |r.results| == 1 && r.results[0].Some?
  }

  /**
    A grant is issued exactly if the user approved it, both apps still have the content it was
    asked for, and the request is sound; it is then the one new grant. Otherwise nothing changes.
   */
  lemma GrantOutcome(s: Kernel, holder: AppId, q: Request, approved: bool, holderHash: Manifest, providerHash: Manifest, t: Clock)
    requires Inv(s) && Willing(s)
    ensures var (s', r), a := CommitGrant(s, holder, q, approved, holderHash, providerHash, t), q.authority;
            && (IsIssued(r) <==>
                  && approved && q.hasReason && WellScoped(a.data)
                  && holder in s.registry && s.registry[holder] == holderHash
                  && a.scope.owner in s.registry && s.registry[a.scope.owner] == providerHash
                  && (a.scope.ExactCapability? ==> a.scope.cap in providerHash.caps))
            && (!IsIssued(r) ==> s' == s && (r.Failure? || (r == Grants([None]) && !approved)))
            && (IsIssued(r) ==>
                  && var g := r.results[0].value;
                  && s'.broker == Broker(s.broker.grants + [g], s.broker.revoked) && Embodies(g, holder, a, UserAdded, t.wall)
                  && (forall h | h in s.broker.grants :: h.id != g.id) && g.id !in s.broker.revoked
                  && s'.registry == s.registry && s'.ledger == s.ledger && s'.pending == s.pending && s'.flags == s.flags)
  {
    hide Inv;
    CurrentAuthority(s);
  }

  /** An upgrade succeeds exactly if only the version moves on, and then changes nothing but the app's manifest. */
  lemma UpgradeOutcome(s: Kernel, m: Manifest, offered: set<CapName>)
    requires Inv(s) && Willing(s)
    ensures var (s', r) := Upgrade(s, m, offered);
            && (r == Done <==>
                  && offered == m.caps.Keys && SoundAmong(s.registry, m, true) && SoundAlone(m)
                  && m.app in s.registry
                  && var installed := s.registry[m.app];
                  && installed.app == m.app && installed.caps == m.caps && installed.types == m.types && installed.requests == m.requests
                  && installed.schemasOk == m.schemasOk)
            && (r != Done ==> r.Failure? && s' == s)
            && (r == Done ==>
                  && s'.registry == s.registry[m.app := m] && s'.handlers == s.handlers[m.app := m.caps.Keys]
                  && s'.broker == s.broker && s'.ledger == s.ledger && s'.pending == s.pending && s'.flags == s.flags
                  && s'.artifacts == s.artifacts)
  {
    hide Inv, RequestsOk, SoundAmong, SoundAlone;
    SoundnessIff(s.registry, m, true, map[]);
  }

  // ----- Planning an install -----

  predicate Requests(m: Manifest, a: Authority) {
    exists q | q in m.requests :: q.authority == a
  }

  lemma {:induction false} MissingMeans(s: Kernel, m: Manifest, origin: Origin, wall: Time, requests: seq<Request>, a: Authority)
    ensures a in Missing(s, m, origin, wall, requests) <==>
            && (exists q | q in requests :: q.authority == a)
            && (a.scope.owner == m.app || a.scope.owner in s.registry)
            && (forall g :: !Matches(s.broker, wall, g, m.app, a, origin))
  {
    hide Satisfies, Matches;
    forall g ensures Matches(s.broker, wall, g, m.app, a, origin) <==>
                     g in s.broker.grants && Satisfies(g, m.app, a, origin) && s.broker.Live(g, wall) {
      MatchesIff(s.broker, wall, g, m.app, a, origin);
    }
    if requests != [] {
      var n := |requests| - 1;
      MissingMeans(s, m, origin, wall, requests[..n], a);
      assert requests == requests[..n] + [requests[n]];
    }
  }

  /**
    An install is planned exactly if every offered capability is bound, the app is not running,
    and the manifest is the installed one or sound in itself. It asks about every distinct
    authority the manifest requests; a rebind only about those whose provider is there and that
    no live grant answers.
   */
  lemma PlanOutcome(s: Kernel, m: Manifest, offered: set<CapName>, origin: Origin, wall: Time, a: Authority)
    ensures var r := PrepareInstall(s, m, offered, origin, wall);
            && (r.Planned? <==>
                  && offered == m.caps.Keys && !(m.app in s.registry && m.app in s.handlers)
                  && ((m.app in s.registry && s.registry[m.app] == m) || (SoundAlone(m) && SoundAmong(s.registry, m, false))))
            && (r.Planned? ==>
                  && var p := r.plan;
                  && p.manifest == m && p.origin == origin && Distinct(p.prompts)
                  && p.mode == (if m.app !in s.registry then Fresh
                                else if s.registry[m.app] == m then Rebind else Replace(s.registry[m.app]))
                  && (a in p.prompts <==>
                        && Requests(m, a)
                        && (p.mode.Rebind? ==>
                              && (a.scope.owner == m.app || a.scope.owner in s.registry)
                              && forall g :: !Matches(s.broker, wall, g, m.app, a, origin)))
                  && ProvidersAsRecorded(s.registry, p.hashes)
                  && (Requests(m, a) && a.scope.owner != m.app ==> a.scope.owner in p.hashes))
  {
    hide RequestsOk, Satisfies, SoundAmong, SoundAlone, Matches;
    SoundnessIff(s.registry, m, false, map[]);
    SoundnessIff(s.registry, m, false, ProviderHashes(s.registry, m));
    MissingMeans(s, m, origin, wall, m.requests, a);
    RequestedAuthority(m, a);
  }

  lemma RequestedAuthority(m: Manifest, a: Authority)
    ensures a in Authorities(m.requests) <==> Requests(m, a)
  {
    if a in Authorities(m.requests) {
      var i :| 0 <= i < |m.requests| && Authorities(m.requests)[i] == a;
      assert m.requests[i] in m.requests;
    }
    if q :| q in m.requests && q.authority == a {
      var i :| 0 <= i < |m.requests| && m.requests[i] == q;
      assert Authorities(m.requests)[i] == a;
    }
  }

  // ----- Committing an install -----

  /** The plan still fits: the providers are as recorded, the app is not running, and what it replaces is what was there. */
  predicate Fits(s: Kernel, p: Plan) {
    && ProvidersAsRecorded(s.registry, p.hashes) && p.manifest.app !in s.handlers
    && match p.mode
       case Fresh => p.manifest.app !in s.registry
       case Rebind => p.manifest.app in s.registry && s.registry[p.manifest.app] == p.manifest
       case Replace(previous) => p.manifest.app in s.registry && s.registry[p.manifest.app] == previous
  }

  /** The outcome of reconciling the plan's requests with the decisions. */
  function Reconciliation(s: Kernel, p: Plan, decisions: seq<bool>, t: Clock): Reconciled {
    Reconcile(StagedBroker(s, p), Authorities(p.manifest.requests),
              Round(p.manifest.app, p.origin, p.prompts, decisions, t.wall), s.nextId)
  }

  lemma StagedCommits(s: Kernel, p: Plan, decisions: seq<bool>, t: Clock)
    requires Inv(s) && Willing(s) && PlanOk(p) && Fits(s, p) && p.manifest.LocallyValid()
    ensures var r := Reconciliation(s, p, decisions, t);
            var (s', reply) := AdoptStaged(s, p, r);
            && reply == Grants(r.results) && s'.broker == r.broker
            && s'.registry == s.registry[p.manifest.app := p.manifest]
            && s'.handlers == s.handlers[p.manifest.app := p.manifest.caps.Keys]
            && s'.pending == s.pending - ClosedWork(s, p) && s'.flags == s.flags + ClosedWork(s, p) * s.pending.Keys
  {
    hide Inv, AuthorityOk, Reconcile, AppendAll;
    SoundnessIff(s.registry, p.manifest, false, p.hashes);
    var r := Reconciliation(s, p, decisions, t);
    StagedAuthority(s, p, decisions, t);
    AdoptedInv(s, p, r.broker, r.nextId);
    ClosesAsStaged(s, p);
  }

  /** Exactly the replaced app's authority is revoked, and grants are only added. */
  lemma ReconciliationRevokes(s: Kernel, p: Plan, decisions: seq<bool>, t: Clock)
    requires Inv(s)
    ensures var b := Reconciliation(s, p, decisions, t).broker;
            && s.broker.grants <= b.grants
            && (forall g | g in s.broker.grants ::
                  g.id in b.revoked <==>
                    || g.id in s.broker.revoked
                    || (p.mode.Replace? && (g.holder == p.manifest.app || g.scope.owner == p.manifest.app)))
  {
    hide Inv, Reconcile;
    ReconcileExtends(StagedBroker(s, p), Authorities(p.manifest.requests),
                     Round(p.manifest.app, p.origin, p.prompts, decisions, t.wall), s.nextId);
    forall g | g in s.broker.grants && p.mode.Replace?
      ensures g.id in RevokeApp(s.broker, p.manifest.app).revoked <==>
              g.id in s.broker.revoked || g.holder == p.manifest.app || g.scope.owner == p.manifest.app
    {
      OnlyThoseOfApp(s, p.manifest.app, g);
    }
  }

  lemma AdoptOutcome(s: Kernel, p: Plan, decisions: seq<bool>, t: Clock)
    requires Inv(s) && Willing(s) && PlanOk(p) && Fits(s, p) && p.manifest.LocallyValid()
    ensures var r := Reconciliation(s, p, decisions, t);
            var (s', reply) := Adopt(s, p, decisions, t);
            && reply == Grants(r.results) && s'.broker == r.broker
            && s'.registry == s.registry[p.manifest.app := p.manifest]
            && s'.handlers == s.handlers[p.manifest.app := p.manifest.caps.Keys]
            && s'.pending == s.pending - ClosedWork(s, p) && s'.flags == s.flags + ClosedWork(s, p) * s.pending.Keys
  {
    hide Inv, Reconcile, AdoptStaged;
    StagedCommits(s, p, decisions, t);
    RebindUnchanged(s, p, decisions, t);
    if p.mode.Rebind? {
      assert s.registry[p.manifest.app := p.manifest] == s.registry;
    }
  }

  /**
    An install commits exactly if its plan still fits, the manifest and its requests are sound,
    new subscriptions were approved, and every prompt has its decision. Then the app is installed
    and bound, the authority and work of the app it replaces are gone, and nothing else of either.
   */
  lemma InstallOutcome(s: Kernel, p: Plan, eventsApproved: bool, decisions: seq<bool>, t: Clock)
    requires Inv(s) && Willing(s) && PlanOk(p)
    ensures var (s', r) := CommitInstall(s, p, eventsApproved, decisions, t);
            && (r.Grants? <==>
                  && Fits(s, p) && SoundAmong(s.registry, p.manifest, p.mode.Rebind?) && |decisions| == |p.prompts|
                  && (!p.mode.Rebind? ==> SoundAlone(p.manifest) && eventsApproved))
            && (!r.Grants? ==> r.Failure? && s' == s)
            && (r.Grants? ==>
                  && var app := p.manifest.app;
                  && r.results == Reconciliation(s, p, decisions, t).results
                  && s'.broker == Reconciliation(s, p, decisions, t).broker && s.broker.grants <= s'.broker.grants
                  && s'.registry == s.registry[app := p.manifest] && s'.handlers == s.handlers[app := p.manifest.caps.Keys]
                  && (forall g | g in s.broker.grants ::
                        g.id in s'.broker.revoked <==>
                          g.id in s.broker.revoked || (p.mode.Replace? && (g.holder == app || g.scope.owner == app)))
                  && (forall id ::
                        id in s'.pending <==>
                          && id in s.pending
                          && !(p.mode.Replace? && (s.pending[id].app == app || s.pending[id].slot.cap.provider == app)))
                  && (forall id: InvId :: id in s'.flags <==> id in s.flags || (id in s.pending && id !in s'.pending)))
  {
    hide Inv, Adopt, Reconciliation, RequestsOk, HashesCurrent, ProvidersAsRecorded, SoundAmong, SoundAlone;
    RegistryOk(s);
    SoundnessIff(s.registry, p.manifest, p.mode.Rebind?, p.hashes);
    ReconciliationRevokes(s, p, decisions, t);
    if Fits(s, p) && (!p.mode.Rebind? ==> p.manifest.LocallyValid()) {
      AdoptOutcome(s, p, decisions, t);
    }
  }

  // ----- From the user's decisions to grants -----

  /**
    Request by request: an install answers a request with a grant exactly if the user approved the
    prompt that asked for it, or a live grant of the app already was just that and the app is not
    being replaced. The grant it reports is live and of just the authority asked for, and requests
    for the same authority share it.
   */
  lemma RequestsAnswered(s: Kernel, p: Plan, eventsApproved: bool, decisions: seq<bool>, t: Clock, i: nat, j: nat)
    requires Inv(s) && Willing(s) && PlanOk(p) && CommitInstall(s, p, eventsApproved, decisions, t).1.Grants?
    requires i < |p.manifest.requests| && j < |p.manifest.requests|
    ensures var (s', r), m := CommitInstall(s, p, eventsApproved, decisions, t), p.manifest;
            var a := m.requests[i].authority;
            && |r.results| == |m.requests| && |decisions| == |p.prompts|
            && (r.results[i].Some? <==>
                  || (exists k :: 0 <= k < |p.prompts| && p.prompts[k] == a && decisions[k])
                  || (!p.mode.Replace? && exists g :: Matches(s.broker, t.wall, g, m.app, a, p.origin)))
            && (r.results[i].Some? ==> Matches(s'.broker, t.wall, r.results[i].value, m.app, a, p.origin))
            && (m.requests[j].authority == a ==> r.results[j] == r.results[i])
  {
    hide Inv, Reconciliation, CommitInstall, Matches, Fits, SoundAmong, SoundAlone;
    InstallOutcome(s, p, eventsApproved, decisions, t);
    ReconciledRequests(s, p, decisions, t, i, j);
  }

  lemma ReconciledRequests(s: Kernel, p: Plan, decisions: seq<bool>, t: Clock, i: nat, j: nat)
    requires Inv(s) && PlanOk(p) && |decisions| == |p.prompts| && i < |p.manifest.requests| && j < |p.manifest.requests|
    ensures var r, m := Reconciliation(s, p, decisions, t), p.manifest;
            var a := m.requests[i].authority;
            && |r.results| == |m.requests|
            && (r.results[i].Some? <==>
                  || (exists k :: 0 <= k < |p.prompts| && p.prompts[k] == a && decisions[k])
                  || (!p.mode.Replace? && exists g :: Matches(s.broker, t.wall, g, m.app, a, p.origin)))
            && (r.results[i].Some? ==> Matches(r.broker, t.wall, r.results[i].value, m.app, a, p.origin))
            && (m.requests[j].authority == a ==> r.results[j] == r.results[i])
  {
    hide Inv, Reconcile, Matches, Satisfies, StagedBroker;
    StagedIdsBelow(s, p);
    var m := p.manifest;
    var q := Round(m.app, p.origin, p.prompts, decisions, t.wall);
    ReconcileOutcome(StagedBroker(s, p), Authorities(m.requests), q, s.nextId);
    var a := m.requests[i].authority;
    assert Authorities(m.requests)[i] == a && Authorities(m.requests)[j] == m.requests[j].authority;
    StagedMatches(s, p, a, t.wall);
    var r := Reconciliation(s, p, decisions, t);
    if r.results[i].Some? {
      MatchesIff(r.broker, t.wall, r.results[i].value, m.app, a, p.origin);
    }
    if i < j && m.requests[j].authority == a {
      assert r.results[i] == r.results[j];
    }
    if j < i && m.requests[j].authority == a {
      assert r.results[j] == r.results[i];
    }
  }

  /** Replacing an app leaves none of its grants live, other installs leave all. */
  lemma StagedMatches(s: Kernel, p: Plan, a: Authority, now: Time)
    ensures var b := StagedBroker(s, p);
            (exists g :: g in b.grants && Satisfies(g, p.manifest.app, a, p.origin) && b.Live(g, now)) <==>
            (!p.mode.Replace? && exists g :: Matches(s.broker, now, g, p.manifest.app, a, p.origin))
  {
    hide Matches;
    var b := StagedBroker(s, p);
    forall g ensures Matches(b, now, g, p.manifest.app, a, p.origin) <==>
                     g in b.grants && Satisfies(g, p.manifest.app, a, p.origin) && b.Live(g, now) {
      MatchesIff(b, now, g, p.manifest.app, a, p.origin);
    }
    if p.mode.Replace? {
      forall g | g in b.grants && Satisfies(g, p.manifest.app, a, p.origin) ensures !b.Live(g, now) {
        assert g.holder == p.manifest.app && g.id in b.revoked;
      }
    }
  }

  /** An app that is not installed holds no live grant. */
  lemma StrangersHoldNothing(s: Kernel, app: AppId)
    requires Inv(s) && app !in s.registry
    ensures forall g | g in s.broker.grants && g.holder == app :: g.id in s.broker.revoked
  {
    hide Inv;
    forall g | g in s.broker.grants && g.holder == app ensures g.id in s.broker.revoked {
      if g.id !in s.broker.revoked {
        LiveIsInstalled(s, g);
      }
    }
  }

  /**
    A new app gets exactly what the user granted: after planning and committing its install,
    each request is answered by a live grant of just that authority exactly if the user approved
    the one prompt that asked for it.
   */
  lemma InstalledAsDecided(s: Kernel, m: Manifest, offered: set<CapName>, origin: Origin, wall: Time,
                           decisions: seq<bool>, t: Clock, i: nat)
    requires Inv(s) && Willing(s) && m.app !in s.registry && PrepareInstall(s, m, offered, origin, wall).Planned?
    requires |decisions| == |PrepareInstall(s, m, offered, origin, wall).plan.prompts| && i < |m.requests|
    ensures var p := PrepareInstall(s, m, offered, origin, wall).plan;
            var (s', r) := CommitInstall(s, p, true, decisions, t);
            && r.Grants? && |r.results| == |m.requests|
            && (exists k :: 0 <= k < |p.prompts| && p.prompts[k] == m.requests[i].authority)
            && (forall k | 0 <= k < |p.prompts| && p.prompts[k] == m.requests[i].authority ::
                  r.results[i].Some? <==> decisions[k])
            && (r.results[i].Some? ==>
                  && var g := r.results[i].value;
                  && g in s'.broker.grants && s'.broker.Live(g, t.wall)
                  && g.holder == m.app && g.scope == m.requests[i].authority.scope && g.data == m.requests[i].authority.data
                  && g.condition == m.requests[i].authority.condition && g.origin == origin)
  {
    hide Inv, CommitInstall, PrepareInstall, SoundAmong, SoundAlone, ProvidersAsRecorded, Reconciliation;
    var p, a := PrepareInstall(s, m, offered, origin, wall).plan, m.requests[i].authority;
    PrepareInstallOk(s, m, offered, origin, wall);
    PlanOutcome(s, m, offered, origin, wall, a);
    assert m.requests[i] in m.requests;
    RegistryOk(s);
    InstallOutcome(s, p, true, decisions, t);
    RequestsAnswered(s, p, true, decisions, t, i, i);
    forall g ensures !Matches(s.broker, t.wall, g, m.app, a, origin) {
      StrangersHoldNothing(s, m.app);
    }
  }

  /**
    An installed app can always be uninstalled; it leaves no active run, no bound handler, no
    pending work and no live authority, and the runs of other apps go on.
   */
  lemma UninstallOutcome(s: Kernel, app: AppId)
    requires Inv(s) && Willing(s)
    ensures var (s', r) := Uninstall(s, app);
            && (r == Done <==> app in s.registry) && (r != Done ==> r.Failure? && s' == s)
            && (r == Done ==>
                  && (forall x :: x in s'.ledger.runs <==> x in s.ledger.runs)
                  && (forall x | x in s.ledger.runs ::
                        s'.ledger.runs[x] == if s.ledger.runs[x].app == app then s.ledger.runs[x].(active := false) else s.ledger.runs[x])
                  && s'.artifacts == s.artifacts)
  {
    hide Inv, Close, InOrder, PendingOfApp, RevokeApp;
    if app in s.registry {
      var c := ClosingApp(s, app);
      ClosingAppOk(s, app);
      ClosingBatch(s, c.ids, c.runs, RunCancelled);
    }
  }
}
