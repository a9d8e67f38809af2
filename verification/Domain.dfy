/**
  Values shared by the kernel model: identifiers, grants, manifests, ledger
  events and artifacts. Identifiers are naturals; payload digests, goals, error
  texts and display names carry no behaviour and are left away.
 */
module Domain {
  import opened Basics

  type AppId = nat
  type CapName = nat
  type RunId = nat
  type GrantId = nat
  type ArtifactId = nat
  type ResourceId = nat
  type TypeName = nat
  type Time = nat

  /** Invocation ids start at 1; 0 stands for "no invocation". */
  type InvId = nat

  datatype CapRef = CapRef(provider: AppId, name: CapName)

  datatype DataScope = NoData | AllResources | Resources(ids: seq<ResourceId>) {
    predicate Valid() {
      Resources? ==> ids != [] && forall i, j | 0 <= i < j < |ids| :: ids[i] != ids[j]
    }

    /** Invocations must name exact resources. */
    predicate ValidForInvocation() {
      Valid() && !AllResources?
    }

    predicate Covers(requested: DataScope) {
      match (this, requested)
      case (NoData, NoData) => true
      case (AllResources, AllResources) => true
      case (AllResources, Resources(_)) => true
      case (Resources(granted), Resources(wanted)) => forall r | r in wanted :: r in granted
      case _ => false
    }
  }

  datatype GrantScope = ExactCapability(owner: AppId, cap: CapName) | AllCapabilities(owner: AppId) {
    predicate Covers(c: CapRef) {
      c.provider == owner && (ExactCapability? ==> c.name == cap)
    }
  }

  datatype Condition = Silent | Notify | RequiresApproval

  datatype Origin = ManifestRequested | UserAdded | McpExport | SystemBundled

  /** A lifetime in seconds is non-zero by construction. */
  type Seconds = n: nat | 0 < n witness 1

  datatype Duration = NonExpiring | ExpiresAfter(seconds: Seconds)

  /** What a request asks for; two requests with equal authority are the same question. */
  datatype Authority = Authority(scope: GrantScope, data: DataScope, condition: Condition, duration: Duration)

  datatype Request = Request(authority: Authority, hasReason: bool)

  datatype Grant = Grant(
    id: GrantId,
    holder: AppId,
    scope: GrantScope,
    data: DataScope,
    condition: Condition,
    origin: Origin,
    issuedAt: Time,
    expiresAt: Option<Time>)
  {
    predicate Valid() {
      data.Valid() && (expiresAt.Some? ==> issuedAt < expiresAt.value)
    }

    predicate Expired(now: Time) {
      expiresAt.Some? && expiresAt.value <= now
    }
  }

  datatype Effect = Unspecified | ReadOnly | LocalWrite | ExternalWrite | Destructive

  /**
    A sealed manifest. Content hashes are total and injective, so the manifest
    value stands for its own hash. `version` is everything an in-place upgrade may
    change (version and presentation text); `schemasOk` is the verdict of the
    local schema and consistency checks.
   */
  datatype Manifest = Manifest(
    app: AppId,
    version: nat,
    caps: map<CapName, Effect>,
    types: set<TypeName>,
    requests: seq<Request>,
    schemasOk: bool)
  {
    predicate LocallyValid() {
      schemasOk && forall q | q in requests :: q.authority.data.Valid()
    }

    predicate SameUpgradeContract(candidate: Manifest) {
      this.(version := 0) == candidate.(version := 0)
    }
  }

  datatype DenialReason = NoGrant | GrantExpired | GrantRevoked

  datatype RunEnd = RunCompleted | RunFailed | RunCancelled | RunInterrupted

  datatype Event =
    | RunStarted(run: RunId, app: AppId, parent: Option<RunId>)
    | ApprovalRequested(run: RunId, key: Key)
    | ApprovalGranted(run: RunId, key: Key)
    | ApprovalDenied(run: RunId, key: Key)
    | Invoked(run: RunId, key: Key)
    | Completed(run: RunId, key: Key)
    | Failed(run: RunId, key: Key)
    | Refused(run: RunId, slot: Slot, reason: DenialReason)
    | Cancelled(run: RunId, slot: Slot)
    | Produced(run: RunId, artifact: ArtifactId, kind: TypeName)
    | RunEnded(run: RunId, how: RunEnd)

  /** Capability and data scope: all that a cancellation or refusal record names. */
  datatype Slot = Slot(cap: CapRef, data: DataScope)

  /** What approval, invocation and outcome records name. */
  datatype Key = Key(slot: Slot, grant: GrantId)

  /**
    A ledger record at its position. `inv` names the prepared invocation the
    record belongs to (0 for none). The kernel does not store it and no operation
    reads it: it only lets properties speak of "the records of one invocation".
   */
  datatype Record = Record(event: Event, inv: InvId)

  datatype Artifact = Artifact(
    id: ArtifactId,
    kind: TypeName,
    run: RunId,
    cap: CapRef,
    grant: GrantId,
    producedBy: AppId)
}
