/**
  Grants and app lifecycle. Every operation stages its whole effect on values,
  offers it to the store once, and changes memory only after a definite commit.
 */
module Lifecycle {
  import opened Basics
  import opened Domain
  import opened Ledger
  import opened Broker
  import opened KernelState

  // ----- Grant requests -----

  /**
    Whether the request's target exists. A request of an app against itself is
    judged by the candidate manifest; an absent provider is tolerated only where
    authority may stay dormant.
   */
  predicate TargetOk(registry: Registry, m: Manifest, scope: GrantScope, tolerateAbsent: bool) {
    if scope.owner == m.app then scope.ExactCapability? ==> scope.cap in m.caps
    else if scope.owner !in registry then tolerateAbsent
    else scope.ExactCapability? ==> scope.cap in registry[scope.owner].caps
  }

  predicate RequestsOk(registry: Registry, m: Manifest, tolerateAbsent: bool) {
    forall q | q in m.requests :: q.hasReason && TargetOk(registry, m, q.authority.scope, tolerateAbsent)
  }

  /** Commit a user's decision on one grant, prepared when both apps had the given content. */
  function CommitGrant(s: Kernel, holder: AppId, q: Request, approved: bool,
                       holderHash: Manifest, providerHash: Manifest, t: Clock): (Kernel, Reply)
  {
    var scope := q.authority.scope;
    if holder !in s.registry || scope.owner !in s.registry then (s, Failure(UnknownApp))
    else if s.registry[holder] != holderHash || s.registry[scope.owner] != providerHash then (s, Failure(Stale))
    else if !q.authority.data.Valid() || !q.hasReason then (s, Failure(InvalidRequest))
    else if scope.ExactCapability? && scope.cap !in s.registry[scope.owner].caps then (s, Failure(UndeclaredCapability))
    else if !approved then (s, Grants([None]))
    else
      var g := NewGrant(s.nextId, holder, q.authority, UserAdded, t.wall);
      var s0 := s.(nextId := s.nextId + 1);
      var (s1, ok) := Offer(s0, Projection(s).(broker := Issue(s.broker, g)));
      if ok then (s1.(broker := Issue(s.broker, g)), Grants([Some(g)])) else (s1, Failure(Durability))
  }

  /** Revoke grants durably, then ask the work under them to stop. */
  function RevokeAll(s: Kernel, ids: set<GrantId>): (Kernel, Reply) {
    var broker := s.broker.(revoked := s.broker.revoked + ids);
    var (s1, ok) := Offer(s, Projection(s).(broker := broker));
    if ok then (s1.(broker := broker, flags := s1.flags + PendingUnder(s1, ids)), Done) else (s1, Failure(Durability))
  }

  function RevokeGrant(s: Kernel, id: GrantId): (Kernel, Reply) {
    if forall g | g in s.broker.grants :: g.id != id then (s, Failure(UnknownGrant)) else RevokeAll(s, {id})
  }

  function RevokeGrantsForResource(s: Kernel, r: ResourceId): (Kernel, Reply) {
    if GrantsOver(s.broker, r) == {} then (s, Done) else RevokeAll(s, GrantsOver(s.broker, r))
  }

  // ----- Installing -----

  datatype Mode = Fresh | Rebind | Replace(previous: Manifest)

  /** A validated install; its prompts are answered without holding the kernel. */
  datatype Plan = Plan(manifest: Manifest, origin: Origin, mode: Mode, prompts: seq<Authority>,
                       hashes: map<AppId, Option<Manifest>>)

  function Authorities(requests: seq<Request>): (r: seq<Authority>)
    ensures |r| == |requests| && forall i | 0 <= i < |r| :: r[i] == requests[i].authority
  {
    seq(|requests|, i requires 0 <= i < |requests| => requests[i].authority)
  }

  /** The requests a rebind asks again: their provider is there and no live grant answers them. */
  function Missing(s: Kernel, m: Manifest, origin: Origin, wall: Time, requests: seq<Request>): (r: seq<Authority>)
    ensures forall a | a in r ::
              && (a.scope.owner == m.app || a.scope.owner in s.registry)
              && Existing(s.broker, wall, m.app, a, origin).None?
  {
    if requests == [] then []
    else
      var n := |requests| - 1;
      var a := requests[n].authority;
      Missing(s, m, origin, wall, requests[..n]) +
      if (a.scope.owner == m.app || a.scope.owner in s.registry) && Existing(s.broker, wall, m.app, a, origin).None?
      then [a] else []
  }

  function HashOf(registry: Registry, app: AppId): Option<Manifest> {
    if app in registry then Some(registry[app]) else None
  }

  function ProviderHashes(registry: Registry, m: Manifest): map<AppId, Option<Manifest>> {
    map a | a in (set q | q in m.requests && q.authority.scope.owner != m.app :: q.authority.scope.owner)
      :: HashOf(registry, a)
  }

  datatype Planned = Planned(plan: Plan) | Rejected(error: Error)

  function PrepareInstall(s: Kernel, m: Manifest, offered: set<CapName>, origin: Origin, wall: Time): Planned {
    if offered != m.caps.Keys then Rejected(BindingMismatch)
    else if m.app in s.registry && m.app in s.handlers then Rejected(AlreadyInstalled)
    else if m.app in s.registry && s.registry[m.app] == m then
      Planned(Plan(m, origin, Rebind, Dedup(Missing(s, m, origin, wall, m.requests)), ProviderHashes(s.registry, m)))
    else if !m.LocallyValid() then Rejected(InvalidManifest)
    else if !RequestsOk(s.registry, m, false) then Rejected(InvalidRequest)
    else
      var mode := if m.app in s.registry then Replace(s.registry[m.app]) else Fresh;
      Planned(Plan(m, origin, mode, Dedup(Authorities(m.requests)), ProviderHashes(s.registry, m)))
  }

  /** What preparing guarantees whatever happens before the commit. */
  predicate PlanOk(p: Plan) {
    && Distinct(p.prompts)
    && (forall a | a in p.prompts ::
          a.scope.owner == p.manifest.app || (a.scope.owner in p.hashes && p.hashes[a.scope.owner].Some?))
  }

  lemma PrepareInstallOk(s: Kernel, m: Manifest, offered: set<CapName>, origin: Origin, wall: Time)
    ensures PrepareInstall(s, m, offered, origin, wall).Planned? ==>
              PlanOk(PrepareInstall(s, m, offered, origin, wall).plan)
  {
    var r := PrepareInstall(s, m, offered, origin, wall);
    if r.Planned? {
      MissingAreRequested(s, m, origin, wall, m.requests);
      forall a | a in r.plan.prompts
        ensures a.scope.owner == m.app || (a.scope.owner in r.plan.hashes && r.plan.hashes[a.scope.owner].Some?)
      {
        if !r.plan.mode.Rebind? {
          var i :| 0 <= i < |m.requests| && Authorities(m.requests)[i] == a;
          assert m.requests[i] in m.requests && m.requests[i].authority == a;
        }
      }
    }
  }

  lemma {:induction false} MissingAreRequested(s: Kernel, m: Manifest, origin: Origin, wall: Time, requests: seq<Request>)
    ensures forall a | a in Missing(s, m, origin, wall, requests) :: exists q :: q in requests && q.authority == a
  {
    if requests != [] {
      MissingAreRequested(s, m, origin, wall, requests[..|requests| - 1]);
      assert requests[|requests| - 1] in requests;
    }
  }

  predicate HashesCurrent(registry: Registry, hashes: map<AppId, Option<Manifest>>) {
    forall a | a in hashes :: hashes[a] == HashOf(registry, a)
  }

  function CommitInstall(s: Kernel, p: Plan, eventsApproved: bool, decisions: seq<bool>, t: Clock): (Kernel, Reply) {
    var m := p.manifest;
    if !HashesCurrent(s.registry, p.hashes) then (s, Failure(Stale))
    else if !p.mode.Fresh? && m.app !in s.registry then (s, Failure(UnknownApp))
    else if m.app in s.handlers then (s, Failure(Stale))
    else if HashOf(s.registry, m.app) != (match p.mode case Fresh => None case Rebind => Some(m) case Replace(h) => Some(h))
    then (s, Failure(Stale))
    else if !p.mode.Rebind? && !m.LocallyValid() then (s, Failure(InvalidManifest))
    else if !RequestsOk(s.registry, m, p.mode.Rebind?) then (s, Failure(InvalidRequest))
    else if !p.mode.Rebind? && !eventsApproved then (s, Failure(SubscriptionDenied))
    else if |decisions| != |p.prompts| then (s, Failure(Stale))
    else Adopt(s, p, decisions, t)
  }

  /** What an install stages: closed work of the app it replaces, and its authority afresh. */
  function StagedClose(s: Kernel, p: Plan): seq<Record> {
    if p.mode.Replace?
    then Close(s, PendingOfApp(s, p.manifest.app))
         + Ends(InOrder(ActiveRuns(s.ledger.runs, p.manifest.app), s.nextId), RunCancelled)
    else []
  }

  /** The pending work that goes with it. */
  function ClosedWork(s: Kernel, p: Plan): set<InvId> {
    if p.mode.Replace? then PendingOfApp(s, p.manifest.app) else {}
  }

  function StagedBroker(s: Kernel, p: Plan): Broker {
    if p.mode.Replace? then RevokeApp(s.broker, p.manifest.app) else s.broker
  }

  function Adopt(s: Kernel, p: Plan, decisions: seq<bool>, t: Clock): (Kernel, Reply) {
    var m := p.manifest;
    var q := Round(m.app, p.origin, p.prompts, decisions, t.wall);
    var r := Reconcile(StagedBroker(s, p), Authorities(m.requests), q, s.nextId);
    // A rebind that issued nothing changes nothing durable.
    if p.mode.Rebind? && r.nextId == s.nextId
    then (s.(handlers := s.handlers[m.app := m.caps.Keys]), Grants(r.results))
    else AdoptStaged(s, p, r)
  }

  function AdoptStaged(s: Kernel, p: Plan, r: Reconciled): (Kernel, Reply) {
    var m, s0 := p.manifest, s.(nextId := r.nextId);
    match AppendAll(s.ledger, StagedClose(s, p))
    case None => (s0, Failure(RunAlreadyEnded))
    case Some(l) =>
      var registry := s.registry[m.app := m];
      var (s1, ok) := Offer(s0, Durable(registry, r.broker, l.records, s.artifacts));
      if !ok then (s1, Failure(Durability))
      else (Forget(s1.(registry := registry, broker := r.broker, ledger := l,
                       handlers := s.handlers[m.app := m.caps.Keys]), ClosedWork(s, p)), Grants(r.results))
  }

  /** Swap version and presentation in place; authority, runs and pending work stay. */
  function Upgrade(s: Kernel, m: Manifest, offered: set<CapName>): (Kernel, Reply) {
    if offered != m.caps.Keys then (s, Failure(BindingMismatch))
    else if !RequestsOk(s.registry, m, true) then (s, Failure(InvalidRequest))
    else if m.app !in s.registry then (s, Failure(UnknownApp))
    else if !m.LocallyValid() then (s, Failure(InvalidManifest))
    else if !s.registry[m.app].SameUpgradeContract(m) then (s, Failure(ContractChanged))
    else
      var registry := s.registry[m.app := m];
      var (s1, ok) := Offer(s, Projection(s).(registry := registry));
      if ok then (s1.(registry := registry, handlers := s1.handlers[m.app := m.caps.Keys]), Done)
      else (s1, Failure(Durability))
  }

  /** Remove an app and everything that carried its authority. */
  function Uninstall(s: Kernel, app: AppId): (Kernel, Reply) {
    if app !in s.registry then (s, Failure(UnknownApp))
    else
      var rs := Close(s, PendingOfApp(s, app)) + Ends(InOrder(ActiveRuns(s.ledger.runs, app), s.nextId), RunCancelled);
      match AppendAll(s.ledger, rs)
      case None => (s, Failure(RunAlreadyEnded))
      case Some(l) =>
        var registry, broker := s.registry - {app}, RevokeApp(s.broker, app);
        var (s1, ok) := Offer(s, Durable(registry, broker, l.records, s.artifacts));
        if !ok then (s1, Failure(Durability))
        else (Forget(s1.(registry := registry, broker := broker, ledger := l, handlers := s.handlers - {app}),
                     PendingOfApp(s, app)), Done)
  }
}
