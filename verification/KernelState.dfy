/**
  The kernel as a value: what it holds in memory, what its store holds, and the
  two ways memory and store move together (`Offer` and `Write`).
 */
module KernelState {
  import opened Basics
  import opened Domain
  import opened Ledger
  import opened Broker

  type Registry = map<AppId, Manifest>

  /** The complete durable projection. */
  datatype Durable = Durable(registry: Registry, broker: Broker, records: seq<Record>, artifacts: map<ArtifactId, Artifact>)

  const EMPTY_DURABLE := Durable(map[], NO_GRANTS, [], map[])

  /** A store answers a commit; in the indeterminate case the write may or may not have happened. */
  datatype CommitOutcome = Committed | NotCommitted | Indeterminate(applied: bool)

  datatype Draft = Draft(kind: TypeName, contentOk: bool)

  /** What became of the handler: never entered, panicked, failed, or returned a result with drafts. */
  datatype Execution = Skipped | Panicked | HandlerFailed | Returned(resultOk: bool, drafts: seq<Draft>)

  /** Phase tokens are single-use and live with the caller. */
  datatype Token =
    | Prepared(prompted: bool)
    | Answered(decision: Option<bool>)
    | Authorized(deadline: Time)
    | Executed(execution: Execution)

  datatype Pending = Pending(
    run: RunId,
    app: AppId,
    slot: Slot,
    grant: Grant,
    hash: Manifest,
    deadline: Time,
    authorized: bool)
  {
    function Key(): Key {
      Domain.Key(slot, grant.id)
    }
  }

  datatype Kernel = Kernel(
    registry: Registry,
    ledger: RunLedger,
    broker: Broker,
    artifacts: map<ArtifactId, Artifact>,
    handlers: map<AppId, set<CapName>>,
    pending: map<InvId, Pending>,
    flags: set<InvId>,
    tokens: map<InvId, Token>,
    recovery: bool,
    disk: Durable,
    offered: Durable,
    script: seq<CommitOutcome>,
    nextId: nat,
    nextInv: InvId)

  /** Instant (for deadlines) and wall clock (for grants), fixed within one call. */
  datatype Clock = Clock(now: Time, wall: Time)

  datatype RefusalReason = ByDenial(reason: DenialReason) | ByUser | ByCancellation

  datatype Error =
    | Durability | UnknownApp | UnknownRun | RunAlreadyEnded | AttributionMismatch | InvalidScope
    | UndeclaredCapability | InvalidInput | HandlerNotBound | NoticeFailed | Consumed | Stale
    | ContractChanged | BindingMismatch | SubscriptionDenied | UnknownGrant | InvalidRequest | InvalidManifest
    | AlreadyInstalled

  datatype Reply =
    | Done
    | RunOpened(run: RunId)
    | WorkPrepared(id: InvId, prompted: bool)
    | Dispatched
    | Refusal(why: RefusalReason)
    | Finished(artifacts: seq<ArtifactId>)
    | InvocationFailed
    | Grants(results: seq<Option<Grant>>)
    | Failure(error: Error)

  /** A kernel whose store will answer its commits as scripted, and `Committed` from then on. */
  function Init(script: seq<CommitOutcome>): Kernel {
    Kernel(map[], EMPTY_LEDGER, NO_GRANTS, map[], map[], map[], {}, map[], false,
           EMPTY_DURABLE, EMPTY_DURABLE, script, 0, 1)
  }

  function Projection(s: Kernel): Durable {
    Durable(s.registry, s.broker, s.ledger.records, s.artifacts)
  }

  /**
    Offer a candidate to the store. Nothing is offered once recovery is required;
    only a definite commit lets the caller adopt the candidate.
   */
  function Offer(s: Kernel, d: Durable): (r: (Kernel, bool))
    ensures r.1 ==> !s.recovery && !r.0.recovery && r.0.disk == d
    ensures s.recovery ==> r.0 == s
    ensures r.0 == s.(disk := r.0.disk, offered := r.0.offered, script := r.0.script, recovery := r.0.recovery)
    ensures r.0.disk == s.disk || r.0.disk == d
    ensures !r.1 && r.0.disk != s.disk ==> r.0.recovery && r.0.disk == r.0.offered
  {
    if s.recovery then (s, false)
    else
      var answer := if s.script == [] then Committed else s.script[0];
      var s1 := s.(script := if s.script == [] then [] else s.script[1..], offered := d);
      match answer
      case Committed => (s1.(disk := d), true)
      case NotCommitted => (s1, false)
      case Indeterminate(applied) =>
        (s1.(recovery := true, disk := if applied then d else s.disk), false)
  }

  /** Append records as one ledger transition; memory follows only a definite commit. */
  function Write(s: Kernel, rs: seq<Record>): (r: (Kernel, bool))
    ensures r.0 == s.(ledger := r.0.ledger, disk := r.0.disk, offered := r.0.offered,
                      script := r.0.script, recovery := r.0.recovery)
    ensures r.1 ==> r.0.ledger.records == s.ledger.records + rs && !r.0.recovery
    ensures !r.1 ==> r.0.ledger == s.ledger
    ensures s.recovery ==> r == (s, false)
    ensures r.0.disk.registry == s.disk.registry || r.0.disk.registry == s.registry
    ensures r.0.disk.broker == s.disk.broker || r.0.disk.broker == s.broker
    ensures r.0.disk.artifacts == s.disk.artifacts || r.0.disk.artifacts == s.artifacts
  {
    match AppendAll(s.ledger, rs)
    case None => (s, false)
    case Some(l) =>
      var (s1, ok) := Offer(s, Projection(s).(records := l.records));
      if ok then (s1.(ledger := l), true) else (s1, false)
  }

  // ----- Enumerations in id order -----

  function InOrder(ids: set<nat>, n: nat): (r: seq<nat>)
    ensures Distinct(r)
    ensures forall x :: x in r <==> x in ids && x < n
  {
    if n == 0 then [] else InOrder(ids, n - 1) + if n - 1 in ids then [n - 1] else []
  }

  /** Cancellation records for a group of pending invocations, in id order. */
  function Cancellations(pending: map<InvId, Pending>, ids: seq<InvId>): (rs: seq<Record>)
    requires forall id | id in ids :: id in pending
    ensures |rs| == |ids|
    ensures forall i | 0 <= i < |ids| ::
              rs[i] == Record(Cancelled(pending[ids[i]].run, pending[ids[i]].slot), ids[i])
  {
    seq(|ids|, i requires 0 <= i < |ids| =>
      assert ids[i] in ids; Record(Cancelled(pending[ids[i]].run, pending[ids[i]].slot), ids[i]))
  }

  function Close(s: Kernel, ids: set<InvId>): (rs: seq<Record>) {
    Cancellations(s.pending, InOrder(ids * s.pending.Keys, s.nextInv))
  }

  function Forget(s: Kernel, ids: set<InvId>): Kernel {
    s.(pending := s.pending - ids, flags := s.flags + ids * s.pending.Keys)
  }

  function PendingOfRun(s: Kernel, run: RunId): set<InvId> {
    set id | id in s.pending && s.pending[id].run == run
  }

  function PendingOfApp(s: Kernel, app: AppId): set<InvId> {
    set id | id in s.pending && (s.pending[id].app == app || s.pending[id].slot.cap.provider == app)
  }

  function PendingUnder(s: Kernel, grants: set<GrantId>): set<InvId> {
    set id | id in s.pending && s.pending[id].grant.id in grants
  }

  /** Cancelled or past the deadline. */
  function PendingDue(s: Kernel, now: Time): set<InvId> {
    set id | id in s.pending && (id in s.flags || s.pending[id].deadline <= now)
  }

  function ActiveRuns(runs: RunIndex, app: AppId): set<RunId> {
    set r | r in runs && runs[r].active && runs[r].app == app
  }
}
