/**
  The permission broker: issued grants in issuance order plus the set of revoked
  ids. A grant is a fact of issuance; it is never removed.
 */
module Broker {
  import opened Basics
  import opened Domain

  datatype Broker = Broker(grants: seq<Grant>, revoked: set<GrantId>) {
    predicate Live(g: Grant, now: Time) {
      g.id !in revoked && !g.Expired(now)
    }
  }

  const NO_GRANTS := Broker([], {})

  datatype GrantCheck = Allowed(grant: Grant) | ApprovalRequired(grant: Grant) | Denied(reason: DenialReason)

  function First(gs: seq<Grant>, p: Grant -> bool): (r: Option<Grant>)
    ensures r.Some? ==> r.value in gs && p(r.value)
    ensures r.None? ==> forall g | g in gs :: !p(g)
  {
    if gs == [] then None else if p(gs[0]) then Some(gs[0]) else First(gs[1..], p)
  }

  function Rank(c: Condition): nat {
    match c
    case Silent => 0
    case Notify => 1
    case RequiresApproval => 2
  }

  predicate CoversFor(g: Grant, holder: AppId, slot: Slot) {
    g.holder == holder && g.scope.Covers(slot.cap) && g.data.Covers(slot.data)
  }

  /**
    Whether `holder` may use the slot now: the least interactive live covering
    grant wins, and a denial says which kind of grant was missing.
   */
  function Check(b: Broker, now: Time, holder: AppId, slot: Slot): (r: GrantCheck)
    ensures !r.Denied? ==>
              && r.grant in b.grants && CoversFor(r.grant, holder, slot) && b.Live(r.grant, now)
              && (r.ApprovalRequired? <==> r.grant.condition == RequiresApproval)
              && forall g | g in b.grants && CoversFor(g, holder, slot) && b.Live(g, now) ::
                   Rank(r.grant.condition) <= Rank(g.condition)
    ensures r.Denied? ==> forall g | g in b.grants && CoversFor(g, holder, slot) :: !b.Live(g, now)
    ensures r == Denied(NoGrant) <==> forall g | g in b.grants :: !CoversFor(g, holder, slot)
    ensures r == Denied(GrantRevoked) <==>
            && (exists g :: g in b.grants && CoversFor(g, holder, slot))
            && forall g | g in b.grants && CoversFor(g, holder, slot) :: g.id in b.revoked
  {
    if First(b.grants, g => CoversFor(g, holder, slot)).None? then Denied(NoGrant)
    else if First(b.grants, g => CoversFor(g, holder, slot) && g.id !in b.revoked).None? then Denied(GrantRevoked)
    else
      var first := First(b.grants, g => CoversFor(g, holder, slot) && b.Live(g, now));
      if first.None? then Denied(GrantExpired)
      else
        var silent := First(b.grants, g => CoversFor(g, holder, slot) && b.Live(g, now) && g.condition == Silent);
        var notify := First(b.grants, g => CoversFor(g, holder, slot) && b.Live(g, now) && g.condition == Notify);
        if silent.Some? then Allowed(silent.value)
        else if notify.Some? then Allowed(notify.value)
        else ApprovalRequired(first.value)
  }

  function NewGrant(id: GrantId, holder: AppId, a: Authority, origin: Origin, now: Time): Grant {
    Grant(id, holder, a.scope, a.data, a.condition, origin, now,
          match a.duration case NonExpiring => None case ExpiresAfter(s) => Some(now + s))
  }

  function Issue(b: Broker, g: Grant): Broker {
    b.(grants := b.grants + [g])
  }

  /** Revoke every grant the app holds and every grant over it. */
  function RevokeApp(b: Broker, app: AppId): Broker {
    b.(revoked := b.revoked + (set g | g in b.grants && (g.holder == app || g.scope.owner == app) :: g.id))
  }

  predicate NamesResource(g: Grant, r: ResourceId) {
    g.data.Resources? && r in g.data.ids
  }

  function GrantsOver(b: Broker, r: ResourceId): set<GrantId> {
    set g | g in b.grants && NamesResource(g, r) :: g.id
  }

  predicate DurationMatches(g: Grant, d: Duration) {
    match d
    case NonExpiring => g.expiresAt == None
    case ExpiresAfter(s) => g.expiresAt == Some(g.issuedAt + s)
  }

  predicate Satisfies(g: Grant, app: AppId, a: Authority, origin: Origin) {
    && g.holder == app && g.scope == a.scope && g.data == a.data && g.condition == a.condition
    && g.origin == origin && DurationMatches(g, a.duration)
  }

  /** The live grant that already answers this request, if any. */
  function Existing(b: Broker, now: Time, app: AppId, a: Authority, origin: Origin): (r: Option<Grant>)
    ensures r.Some? ==> r.value in b.grants && Satisfies(r.value, app, a, origin) && b.Live(r.value, now)
    ensures r.None? ==> forall g | g in b.grants && Satisfies(g, app, a, origin) :: !b.Live(g, now)
  {
    First(b.grants, g => Satisfies(g, app, a, origin) && b.Live(g, now))
  }

  // ----- Prompts: one per distinct authority -----

  function Dedup(as_: seq<Authority>): (r: seq<Authority>)
    ensures Distinct(r)
    ensures forall a :: a in r <==> a in as_
  {
    if as_ == [] then []
    else
      var n := |as_| - 1;
      var r := Dedup(as_[..n]);
      assert as_ == as_[..n] + [as_[n]];
      if as_[n] in r then r else r + [as_[n]]
  }

  method DedupPrompts(prompts: seq<Authority>) returns (unique: seq<Authority>)
    ensures unique == Dedup(prompts)
  {
    unique := [];
    for i := 0 to |prompts|
      invariant unique == Dedup(prompts[..i])
    {
      assert prompts[..i + 1][..i] == prompts[..i];
      if prompts[i] !in unique {
        unique := unique + [prompts[i]];
      }
    }
    assert prompts[..|prompts|] == prompts;
  }

  /** The decision collected for an authority: the first prompt that asked for it. */
  function Decision(prompts: seq<Authority>, decisions: seq<bool>, a: Authority): (r: Option<bool>)
    ensures r.Some? ==> exists k :: 0 <= k < |prompts| && k < |decisions| && prompts[k] == a && decisions[k] == r.value
    ensures r.None? ==> forall k | 0 <= k < |prompts| && k < |decisions| :: prompts[k] != a
  {
    if prompts == [] || decisions == [] then None
    else if prompts[0] == a then Some(decisions[0])
    else
      var r := Decision(prompts[1..], decisions[1..], a);
      assert r.None? ==> forall k | 0 < k < |prompts| && k < |decisions| ::
          prompts[k] == prompts[1..][k - 1] && prompts[k] != a;
      r
  }

  // ----- Reconciling a manifest's requests with the decisions -----

  /** One install or rebind: who asks, under which origin, and what trusted chrome answered. */
  datatype Round = Round(app: AppId, origin: Origin, prompts: seq<Authority>, decisions: seq<bool>, now: Time) {
    predicate Approved(a: Authority) {
      Decision(prompts, decisions, a) == Some(true)
    }

    function Answered(b: Broker, a: Authority): Option<Grant> {
      Existing(b, now, app, a, origin)
    }

    function Grant(id: GrantId, a: Authority): Grant {
      NewGrant(id, app, a, origin, now)
    }
  }

  datatype Reconciled = Reconciled(broker: Broker, results: seq<Option<Grant>>, nextId: GrantId)

  function Reconcile(b: Broker, requests: seq<Authority>, q: Round, nextId: GrantId): (r: Reconciled)
    ensures |r.results| == |requests|
  {
    if requests == [] then Reconciled(b, [], nextId)
    else
      var n := |requests| - 1;
      var r := Reconcile(b, requests[..n], q, nextId);
      var existing := q.Answered(r.broker, requests[n]);
      if existing.Some? then r.(results := r.results + [existing])
      else if q.Approved(requests[n]) then
        var g := q.Grant(r.nextId, requests[n]);
        Reconciled(Issue(r.broker, g), r.results + [Some(g)], r.nextId + 1)
      else r.(results := r.results + [None])
  }

  method ReconcileManifestGrants(b: Broker, requests: seq<Authority>, q: Round, nextId: GrantId)
    returns (broker: Broker, results: seq<Option<Grant>>, issuedAny: bool, next: GrantId)
    ensures Reconciled(broker, results, next) == Reconcile(b, requests, q, nextId)
    ensures issuedAny <==> next != nextId
  {
    broker, results, issuedAny, next := b, [], false, nextId;
    for i := 0 to |requests|
      invariant Reconciled(broker, results, next) == Reconcile(b, requests[..i], q, nextId)
      invariant nextId <= next && (issuedAny <==> next != nextId)
    {
      assert requests[..i + 1][..i] == requests[..i];
      var existing := q.Answered(broker, requests[i]);
      if existing.Some? {
        results := results + [existing];
        continue;
      }
      var decision := Decision(q.prompts, q.decisions, requests[i]);
      if decision == Some(true) {
        var g := q.Grant(next, requests[i]);
        broker, results, next, issuedAny := Issue(broker, g), results + [Some(g)], next + 1, true;
      } else {
        results := results + [None];
      }
    }
    assert requests[..|requests|] == requests;
  }

  // ----- What reconciliation achieves -----

  predicate IdsBelow(b: Broker, nextId: GrantId) {
    && (forall g | g in b.grants :: g.id < nextId)
    && (forall id | id in b.revoked :: id < nextId)
  }

  /** Distinct requested authorities that the decisions turn into new grants. */
  function NewAuthorities(b: Broker, requests: seq<Authority>, q: Round): set<Authority> {
    set a | a in requests && q.Answered(b, a).None? && q.Approved(a)
  }

  /** Nothing lost, and one new id and one new grant per newly approved authority. */
  ghost predicate Counted(b: Broker, requests: seq<Authority>, q: Round, nextId: GrantId, r: Reconciled) {
    && b.grants <= r.broker.grants && r.broker.revoked == b.revoked
    && IdsBelow(r.broker, r.nextId)
    && r.nextId - nextId == |r.broker.grants| - |b.grants| == |NewAuthorities(b, requests, q)|
  }

  predicate AllNew(b: Broker, requests: seq<Authority>, q: Round, r: Reconciled) {
    forall g | g in r.broker.grants && g !in b.grants :: NewFor(b, requests, q, g)
  }

  ghost predicate Settled(b: Broker, requests: seq<Authority>, q: Round, r: Reconciled) {
    && |r.results| == |requests|
    && (forall i | 0 <= i < |requests| :: r.results[i] == q.Answered(r.broker, requests[i]))
    && (forall a | a in requests :: SettledFor(b, q, r, a))
  }

  predicate SettledFor(b: Broker, q: Round, r: Reconciled, a: Authority) {
    q.Answered(r.broker, a).Some? <==> q.Answered(b, a).Some? || q.Approved(a)
  }

  ghost predicate Progress(b: Broker, requests: seq<Authority>, q: Round, nextId: GrantId, r: Reconciled) {
    Counted(b, requests, q, nextId, r) && AllNew(b, requests, q, r) && Settled(b, requests, q, r)
  }

  function AuthorityOf(g: Grant): Authority {
    Authority(g.scope, g.data, g.condition,
              if g.expiresAt.Some? && g.issuedAt < g.expiresAt.value
              then ExpiresAfter(g.expiresAt.value - g.issuedAt) else NonExpiring)
  }

  /** A grant issued for one of the newly approved authorities. */
  predicate NewFor(b: Broker, requests: seq<Authority>, q: Round, g: Grant) {
    AuthorityOf(g) in NewAuthorities(b, requests, q) && g == q.Grant(g.id, AuthorityOf(g))
  }

  lemma GrantSatisfies(q: Round, id: GrantId, a: Authority, a': Authority)
    ensures Satisfies(q.Grant(id, a), q.app, a', q.origin) <==> a == a'
    ensures !q.Grant(id, a).Expired(q.now) && AuthorityOf(q.Grant(id, a)) == a
  {
  }

  lemma {:induction false} FirstAppend(gs: seq<Grant>, g: Grant, p: Grant -> bool)
    ensures First(gs + [g], p) == if First(gs, p).Some? then First(gs, p) else if p(g) then Some(g) else None
  {
    if gs == [] {
      assert gs + [g] == [g];
    } else {
      assert (gs + [g])[1..] == gs[1..] + [g];
      FirstAppend(gs[1..], g, p);
    }
  }

  lemma {:induction false} FirstSame(gs: seq<Grant>, b: Broker, b': Broker, now: Time, app: AppId, a: Authority, origin: Origin)
    requires b.revoked == b'.revoked
    ensures First(gs, g => Satisfies(g, app, a, origin) && b.Live(g, now))
            == First(gs, g => Satisfies(g, app, a, origin) && b'.Live(g, now))
  {
    if gs != [] {
      FirstSame(gs[1..], b, b', now, app, a, origin);
    }
  }

  lemma AnsweredAfterIssue(b: Broker, q: Round, id: GrantId, a: Authority, a': Authority)
    requires id !in b.revoked
    ensures q.Answered(Issue(b, q.Grant(id, a)), a') ==
            if q.Answered(b, a').Some? then q.Answered(b, a') else if a == a' then Some(q.Grant(id, a)) else None
  {
    var g := q.Grant(id, a);
    var b' := Issue(b, g);
    FirstAppend(b.grants, g, x => Satisfies(x, q.app, a', q.origin) && b'.Live(x, q.now));
    FirstSame(b.grants, b, b', q.now, q.app, a', q.origin);
    GrantSatisfies(q, id, a, a');
  }

  lemma NothingRequested(b: Broker, q: Round, nextId: GrantId)
    requires IdsBelow(b, nextId)
    ensures Progress(b, [], q, nextId, Reconciled(b, [], nextId))
  {
    assert NewAuthorities(b, [], q) == {};
  }

  lemma ReconcileOne(b: Broker, before: seq<Authority>, a: Authority, q: Round, nextId: GrantId, r: Reconciled)
    requires Progress(b, before, q, nextId, r)
    ensures var existing := q.Answered(r.broker, a);
            var g := q.Grant(r.nextId, a);
            Progress(b, before + [a], q, nextId,
                     if existing.Some? then r.(results := r.results + [existing])
                     else if q.Approved(a) then Reconciled(Issue(r.broker, g), r.results + [Some(g)], r.nextId + 1)
                     else r.(results := r.results + [None]))
  {
    hide Progress, Existing, Decision;
    if q.Answered(r.broker, a).None? && q.Approved(a) {
      IssuedProgress(b, before, a, q, nextId, r);
    } else {
      KeptProgress(b, before, a, q, nextId, r);
    }
  }

  lemma {:induction false} ReconcileProgress(b: Broker, requests: seq<Authority>, q: Round, nextId: GrantId)
    requires IdsBelow(b, nextId)
    ensures Progress(b, requests, q, nextId, Reconcile(b, requests, q, nextId))
  {
    hide Progress, Existing, Decision, IdsBelow;
    if requests == [] {
      NothingRequested(b, q, nextId);
    } else {
      var n := |requests| - 1;
      ReconcileProgress(b, requests[..n], q, nextId);
      ReconcileOne(b, requests[..n], requests[n], q, nextId, Reconcile(b, requests[..n], q, nextId));
      assert requests == requests[..n] + [requests[n]];
    }
  }

  /** A grant issued for another authority does not answer this one. */
  lemma NotAnsweredByOthers(b: Broker, before: seq<Authority>, q: Round, r: Reconciled, a: Authority)
    requires b.grants <= r.broker.grants && r.broker.revoked == b.revoked && AllNew(b, before, q, r) && a !in before
    ensures q.Answered(r.broker, a).Some? <==> q.Answered(b, a).Some?
  {
    if q.Answered(r.broker, a).Some? {
      var g := q.Answered(r.broker, a).value;
      if g !in b.grants {
        assert NewFor(b, before, q, g);
        GrantSatisfies(q, g.id, AuthorityOf(g), a);
      }
    }
    if q.Answered(b, a).Some? {
      var g := q.Answered(b, a).value;
      assert g in r.broker.grants;
    }
  }

  /** Whether the next request adds an authority depends only on the state before reconciliation. */
  lemma NewAuthoritiesMore(b: Broker, before: seq<Authority>, a: Authority, q: Round)
    ensures NewAuthorities(b, before + [a], q) ==
            NewAuthorities(b, before, q) + if q.Answered(b, a).None? && q.Approved(a) then {a} else {}
  {
  }

  lemma AllNewMore(b: Broker, before: seq<Authority>, a: Authority, q: Round, r: Reconciled, r': Reconciled)
    requires AllNew(b, before, q, r)
    requires forall g | g in r'.broker.grants && g !in r.broker.grants :: NewFor(b, before + [a], q, g)
    ensures AllNew(b, before + [a], q, r')
  {
    NewAuthoritiesMore(b, before, a, q);
    forall g | g in r'.broker.grants && g !in b.grants ensures NewFor(b, before + [a], q, g) {
      assert g in r.broker.grants ==> NewFor(b, before, q, g);
    }
  }

  lemma AnsweredBefore(b: Broker, before: seq<Authority>, a: Authority, q: Round, nextId: GrantId, r: Reconciled)
    requires Progress(b, before, q, nextId, r)
    ensures a in before ==> SettledFor(b, q, r, a)
    ensures a !in before ==> (q.Answered(r.broker, a).Some? <==> q.Answered(b, a).Some?)
  {
    if a !in before {
      NotAnsweredByOthers(b, before, q, r, a);
    }
  }

  lemma KeptSettles(b: Broker, before: seq<Authority>, a: Authority, q: Round, r: Reconciled)
    requires Settled(b, before, q, r) && SettledFor(b, q, r, a)
    ensures Settled(b, before + [a], q, r.(results := r.results + [q.Answered(r.broker, a)]))
  {
    var all, r' := before + [a], r.(results := r.results + [q.Answered(r.broker, a)]);
    forall x | x in all ensures SettledFor(b, q, r', x) {
      assert x in before ==> SettledFor(b, q, r, x);
    }
  }

  lemma CountedKept(b: Broker, before: seq<Authority>, a: Authority, q: Round, nextId: GrantId, r: Reconciled, r': Reconciled)
    requires Counted(b, before, q, nextId, r) && r'.broker == r.broker && r'.nextId == r.nextId
    requires a in before || q.Answered(b, a).Some? || !q.Approved(a)
    ensures Counted(b, before + [a], q, nextId, r')
  {
    NewAuthoritiesMore(b, before, a, q);
    assert NewAuthorities(b, before + [a], q) == NewAuthorities(b, before, q);
  }

  lemma CountedIssued(b: Broker, before: seq<Authority>, a: Authority, q: Round, nextId: GrantId, r: Reconciled, r': Reconciled)
    requires Counted(b, before, q, nextId, r) && r'.nextId == r.nextId + 1
    requires r'.broker == Issue(r.broker, q.Grant(r.nextId, a))
    requires a !in before && q.Answered(b, a).None? && q.Approved(a)
    ensures Counted(b, before + [a], q, nextId, r')
  {
    NewAuthoritiesMore(b, before, a, q);
    assert a !in NewAuthorities(b, before, q);
    assert |NewAuthorities(b, before, q) + {a}| == |NewAuthorities(b, before, q)| + 1;
  }

  lemma KeptProgress(b: Broker, before: seq<Authority>, a: Authority, q: Round, nextId: GrantId, r: Reconciled)
    requires Progress(b, before, q, nextId, r)
    requires q.Answered(r.broker, a).Some? || !q.Approved(a)
    ensures Progress(b, before + [a], q, nextId, r.(results := r.results + [q.Answered(r.broker, a)]))
  {
    var r' := r.(results := r.results + [q.Answered(r.broker, a)]);
    AnsweredBefore(b, before, a, q, nextId, r);
    KeptSettles(b, before, a, q, r);
    CountedKept(b, before, a, q, nextId, r, r');
    AllNewMore(b, before, a, q, r, r');
  }

  lemma IssuedProgress(b: Broker, before: seq<Authority>, a: Authority, q: Round, nextId: GrantId, r: Reconciled)
    requires Progress(b, before, q, nextId, r)
    requires q.Answered(r.broker, a).None? && q.Approved(a)
    ensures var g := q.Grant(r.nextId, a);
            Progress(b, before + [a], q, nextId, Reconciled(Issue(r.broker, g), r.results + [Some(g)], r.nextId + 1))
  {
    hide Settled, Counted, AllNew, Existing;
    var g := q.Grant(r.nextId, a);
    var r' := Reconciled(Issue(r.broker, g), r.results + [Some(g)], r.nextId + 1);
    AnsweredBefore(b, before, a, q, nextId, r);
    NotYetRevoked(b, before, q, nextId, r);
    IssuedSettles(b, before, a, q, r);
    CountedIssued(b, before, a, q, nextId, r, r');
    assert NewFor(b, before + [a], q, g) by {
      GrantSatisfies(q, r.nextId, a, a);
      assert a in NewAuthorities(b, before + [a], q);
    }
    AllNewMore(b, before, a, q, r, r');
  }

  lemma NotYetRevoked(b: Broker, before: seq<Authority>, q: Round, nextId: GrantId, r: Reconciled)
    requires Counted(b, before, q, nextId, r)
    ensures r.nextId !in r.broker.revoked
  {
  }

  lemma IssuedSettles(b: Broker, before: seq<Authority>, a: Authority, q: Round, r: Reconciled)
    requires Settled(b, before, q, r) && r.nextId !in r.broker.revoked
    requires q.Answered(r.broker, a).None? && q.Approved(a)
    ensures var g := q.Grant(r.nextId, a);
            Settled(b, before + [a], q, Reconciled(Issue(r.broker, g), r.results + [Some(g)], r.nextId + 1))
  {
    var g := q.Grant(r.nextId, a);
    var r' := Reconciled(Issue(r.broker, g), r.results + [Some(g)], r.nextId + 1);
    var all := before + [a];
    forall i | 0 <= i < |all| ensures r'.results[i] == q.Answered(r'.broker, all[i]) {
      AnsweredAfterIssue(r.broker, q, r.nextId, a, all[i]);
      assert i < |before| ==> all[i] in before && SettledFor(b, q, r, all[i]);
    }
    forall x | x in all ensures SettledFor(b, q, r', x) {
      AnsweredAfterIssue(r.broker, q, r.nextId, a, x);
      assert x in before ==> SettledFor(b, q, r, x);
    }
  }

  /**
    Reconciliation, request by request: a result is issued exactly if a live grant
    already answered the request or its prompt was approved; equal requests get the
    same grant; nothing is revoked; and the grants added are one per distinct
    approved authority that lacked one.
   */
  lemma ReconcileOutcome(b: Broker, requests: seq<Authority>, q: Round, nextId: GrantId)
    requires IdsBelow(b, nextId) && Distinct(q.prompts) && |q.prompts| == |q.decisions|
    ensures var r := Reconcile(b, requests, q, nextId);
            && (forall i | 0 <= i < |requests| ::
                  r.results[i].Some? <==>
                    || (exists g :: g in b.grants && Satisfies(g, q.app, requests[i], q.origin) && b.Live(g, q.now))
                    || (exists k :: 0 <= k < |q.prompts| && q.prompts[k] == requests[i] && q.decisions[k]))
            && (forall i | 0 <= i < |requests| && r.results[i].Some? ::
                  r.results[i].value in r.broker.grants
                  && Satisfies(r.results[i].value, q.app, requests[i], q.origin)
                  && r.broker.Live(r.results[i].value, q.now))
            && (forall i, j | 0 <= i < j < |requests| && requests[i] == requests[j] :: r.results[i] == r.results[j])
            && b.grants <= r.broker.grants && r.broker.revoked == b.revoked
            && |r.broker.grants| - |b.grants| == |NewAuthorities(b, requests, q)|
  {
    ReconcileProgress(b, requests, q, nextId);
    forall a ensures q.Approved(a) <==> exists k :: 0 <= k < |q.prompts| && q.prompts[k] == a && q.decisions[k] {
      ApprovedMeans(q, a);
    }
    var r := Reconcile(b, requests, q, nextId);
    forall i | 0 <= i < |requests|
      ensures r.results[i].Some? <==> q.Answered(b, requests[i]).Some? || q.Approved(requests[i])
    {
      assert SettledFor(b, q, r, requests[i]);
    }
  }

  lemma ApprovedMeans(q: Round, a: Authority)
    requires Distinct(q.prompts) && |q.prompts| == |q.decisions|
    ensures q.Approved(a) <==> exists k :: 0 <= k < |q.prompts| && q.prompts[k] == a && q.decisions[k]
  {
  }
}
