/**
  What a grant entitles its holder to, spelled out resource by resource, and the
  broker's check judged by it.
 */
module Coverage {
  import opened Basics
  import opened Domain
  import opened Broker
  import opened KernelState
  import opened KernelInvariant
  import opened Runs

  predicate Names(d: DataScope, r: ResourceId) {
    d.Resources? && r in d.ids
  }

  /** A list of resources names some, and none twice. */
  predicate WellScoped(d: DataScope) {
    d.Resources? ==> d.ids != [] && Distinct(d.ids)
  }

  /** The grant's data reaches all that is asked for: work without data needs a grant without data. */
  ghost predicate Reaches(granted: DataScope, wanted: DataScope) {
    && (granted.NoData? <==> wanted.NoData?)
    && (granted.Resources? ==> wanted.Resources? && forall r | Names(wanted, r) :: Names(granted, r))
  }

  /** The grant is the holder's, is for this provider and capability, and reaches the data. */
  ghost predicate Entitles(g: Grant, holder: AppId, slot: Slot) {
    && g.holder == holder && g.scope.owner == slot.cap.provider
    && (g.scope == ExactCapability(slot.cap.provider, slot.cap.name) || g.scope == AllCapabilities(slot.cap.provider))
    && Reaches(g.data, slot.data)
  }

  ghost predicate Usable(b: Broker, now: Time, holder: AppId, slot: Slot, i: int) {
    && 0 <= i < |b.grants|
    && var g := b.grants[i];
    && Entitles(g, holder, slot) && g.id !in b.revoked && (g.expiresAt == None || now < g.expiresAt.value)
  }

  /** `g` interrupts the user less than `h`. */
  predicate Quieter(g: Grant, h: Grant) {
    || (g.condition == Silent && h.condition != Silent)
    || (g.condition == Notify && h.condition == RequiresApproval)
  }

  lemma EntitlesIsCovering(g: Grant, holder: AppId, slot: Slot)
    ensures Entitles(g, holder, slot) <==> CoversFor(g, holder, slot)
  {
    ReachesIsCovering(g.data, slot.data);
  }

  lemma ReachesIsCovering(granted: DataScope, wanted: DataScope)
    ensures Reaches(granted, wanted) <==> granted.Covers(wanted)
  {
    if granted.Resources? && wanted.Resources? {
      assert forall r :: (Names(wanted, r) <==> r in wanted.ids) && (Names(granted, r) <==> r in granted.ids);
    }
  }

  lemma {:induction false} FirstIsEarliest(gs: seq<Grant>, p: Grant -> bool) returns (i: nat)
    requires First(gs, p).Some?
    ensures i < |gs| && gs[i] == First(gs, p).value && forall j | 0 <= j < i :: !p(gs[j])
  {
    i := 0;
    if !p(gs[0]) {
      i := FirstIsEarliest(gs[1..], p);
      i := i + 1;
    }
  }

  /** The broker denies exactly if no usable grant was ever issued to the holder. */
  lemma DeniedIff(b: Broker, now: Time, holder: AppId, slot: Slot)
    ensures Check(b, now, holder, slot).Denied? <==> forall i :: !Usable(b, now, holder, slot, i)
  {
    forall g ensures Entitles(g, holder, slot) <==> CoversFor(g, holder, slot) {
      EntitlesIsCovering(g, holder, slot);
    }
    var r := Check(b, now, holder, slot);
    if !r.Denied? {
      var i :| 0 <= i < |b.grants| && b.grants[i] == r.grant;
      assert Usable(b, now, holder, slot, i);
    }
  }

  /**
    The reason of a denial: nothing issued entitles the holder, or everything that does is revoked,
    or what is not revoked has expired.
   */
  lemma DenialReasons(b: Broker, now: Time, holder: AppId, slot: Slot)
    ensures var r := Check(b, now, holder, slot);
            && (r == Denied(NoGrant) <==> forall g | g in b.grants :: !Entitles(g, holder, slot))
            && (r == Denied(GrantRevoked) <==>
                  && (exists g :: g in b.grants && Entitles(g, holder, slot))
                  && forall g | g in b.grants && Entitles(g, holder, slot) :: g.id in b.revoked)
            && (r == Denied(GrantExpired) ==>
                  && (exists g :: g in b.grants && Entitles(g, holder, slot) && g.id !in b.revoked)
                  && forall g | g in b.grants && Entitles(g, holder, slot) && g.id !in b.revoked ::
                       g.expiresAt.Some? && g.expiresAt.value <= now)
  {
    hide Entitles, CoversFor;
    forall g ensures Entitles(g, holder, slot) <==> CoversFor(g, holder, slot) {
      EntitlesIsCovering(g, holder, slot);
    }
  }

  /** What is left when quieter conditions are ruled out one after the other. */
  lemma Chosen(b: Broker, now: Time, holder: AppId, slot: Slot) returns (i: nat)
    requires !Check(b, now, holder, slot).Denied?
    ensures Usable(b, now, holder, slot, i) && b.grants[i] == Check(b, now, holder, slot).grant
    ensures forall j | Usable(b, now, holder, slot, j) ::
              Quieter(b.grants[i], b.grants[j]) || (b.grants[j].condition == b.grants[i].condition && i <= j)
  {
    hide Entitles;
    forall g ensures Entitles(g, holder, slot) <==> CoversFor(g, holder, slot) {
      EntitlesIsCovering(g, holder, slot);
    }
    var live := (g: Grant) => CoversFor(g, holder, slot) && b.Live(g, now);
    var silent := (g: Grant) => CoversFor(g, holder, slot) && b.Live(g, now) && g.condition == Silent;
    var notify := (g: Grant) => CoversFor(g, holder, slot) && b.Live(g, now) && g.condition == Notify;
    var r := Check(b, now, holder, slot);
    if First(b.grants, silent).Some? {
      i := FirstIsEarliest(b.grants, silent);
    } else if First(b.grants, notify).Some? {
      i := FirstIsEarliest(b.grants, notify);
    } else {
      i := FirstIsEarliest(b.grants, live);
    }
  }

  /**
    A check that does not deny picks the earliest issued of the usable grants that
    interrupt the user least, and asks for approval exactly if that one does.
   */
  lemma ChecksQuietestFirst(b: Broker, now: Time, holder: AppId, slot: Slot)
    requires exists i :: Usable(b, now, holder, slot, i)
    ensures var r := Check(b, now, holder, slot);
            && !r.Denied? && (r.ApprovalRequired? <==> r.grant.condition == RequiresApproval)
            && exists i :: Usable(b, now, holder, slot, i) && b.grants[i] == r.grant
                 && forall j | Usable(b, now, holder, slot, j) ::
                      Quieter(r.grant, b.grants[j]) || (b.grants[j].condition == r.grant.condition && i <= j)
  {
    DeniedIff(b, now, holder, slot);
    var i := Chosen(b, now, holder, slot);
  }

  /**
    In every reachable state, pending work acts for the app that holds its grant, within
    the provider and capability of the grant, and every resource it names is named by the
    grant unless that reaches all resources.
   */
  lemma WorkStaysWithinItsGrant(script: seq<CommitOutcome>, calls: seq<Call>, id: InvId)
    ensures var s := Run(Init(script), calls);
            id in s.pending ==>
              && var p := s.pending[id];
              && p.grant in s.broker.grants && Entitles(p.grant, p.app, p.slot)
              && forall r | Names(p.slot.data, r) :: p.grant.data.AllResources? || Names(p.grant.data, r)
  {
    hide Inv, Run;
    ReachableInv(script, calls);
    var s := Run(Init(script), calls);
    if id in s.pending {
      EntryFacts(s, id);
      EntitlesIsCovering(s.pending[id].grant, s.pending[id].app, s.pending[id].slot);
    }
  }
}
