/**
  The action path: runs, and invocations from preparation to their one terminal
  record. Each operation maps the kernel and a clock reading to the next kernel
  and a reply.
 */
module ActionPath {
  import opened Basics
  import opened Domain
  import opened Ledger
  import opened Broker
  import opened KernelState

  // ----- Runs -----

  function StartRun(s: Kernel, app: AppId, parent: Option<RunId>): (Kernel, Reply) {
    if app !in s.registry then (s, Failure(UnknownApp))
    else if parent.Some? && parent.value !in s.ledger.runs then (s, Failure(UnknownRun))
    else if parent.Some? && !s.ledger.runs[parent.value].active then (s, Failure(RunAlreadyEnded))
    else if parent.Some? && s.ledger.runs[parent.value].app != app then (s, Failure(AttributionMismatch))
    else
      var s0 := s.(nextId := s.nextId + 1);
      var (s1, ok) := Write(s0, [Record(RunStarted(s.nextId, app, parent), 0)]);
      (s1, if ok then RunOpened(s.nextId) else Failure(Durability))
  }

  function EndRun(s: Kernel, run: RunId, how: RunEnd): (Kernel, Reply) {
    if run !in s.ledger.runs then (s, Failure(UnknownRun))
    else if !s.ledger.runs[run].active then (s, Failure(RunAlreadyEnded))
    else
      var ids := PendingOfRun(s, run);
      var (s1, ok) := Write(s, Close(s, ids) + Ends([run], how));
      if ok then (Forget(s1, ids), Done) else (s1, Failure(Durability))
  }

  // ----- Preparation -----

  /** Record a cancellation for every pending invocation that is cancelled or late, and drop it. */
  function Reap(s: Kernel, now: Time): (Kernel, bool) {
    var ids := PendingDue(s, now);
    if ids == {} then (s, true)
    else
      var (s1, ok) := Write(s, Close(s, ids));
      if ok then (s1.(pending := s1.pending - ids), true) else (s1, false)
  }

  /** What the caller asks for, with the verdicts of the schema check and of showing a notice. */
  datatype Attempt = Attempt(run: RunId, slot: Slot, inputOk: bool, noticeOk: bool, timeout: Time)

  /**
    A click in the provider's own surface stands for approval only when the
    declared effect is bounded to reads or local writes.
   */
  predicate ClickIsConsent(direct: bool, effect: Effect) {
    direct && (effect == ReadOnly || effect == LocalWrite)
  }

  predicate Declares(registry: Registry, cap: CapRef) {
    cap.provider in registry && cap.name in registry[cap.provider].caps
  }

  predicate Bound(handlers: map<AppId, set<CapName>>, cap: CapRef) {
    cap.provider in handlers && cap.name in handlers[cap.provider]
  }

  /** The checks before anything is asked of the broker. */
  function Inadmissible(s: Kernel, a: Attempt): Option<Error> {
    if !a.slot.data.ValidForInvocation() then Some(InvalidScope)
    else if a.run !in s.ledger.runs then Some(UnknownRun)
    else if !s.ledger.runs[a.run].active then Some(RunAlreadyEnded)
    else if s.ledger.runs[a.run].app !in s.registry then Some(UnknownApp)
    else if a.slot.cap.provider !in s.registry then Some(UnknownApp)
    else if !Declares(s.registry, a.slot.cap) then Some(UndeclaredCapability)
    else if !a.inputOk then Some(InvalidInput)
    else None
  }

  function Prepare(s: Kernel, a: Attempt, direct: bool, t: Clock): (Kernel, Reply) {
    var (s1, reaped) := Reap(s, t.now);
    if !reaped then (s1, Failure(Durability))
    else if Inadmissible(s1, a).Some? then (s1, Failure(Inadmissible(s1, a).value))
    else
      var app := s1.ledger.runs[a.run].app;
      match Check(s1.broker, t.wall, app, a.slot)
      case Denied(reason) =>
        var (s2, ok) := Write(s1, [Record(Refused(a.run, a.slot, reason), 0)]);
        (s2, if ok then Refusal(ByDenial(reason)) else Failure(Durability))
      case Allowed(grant) => Open(s1, a, direct, app, grant, t)
      case ApprovalRequired(grant) => Open(s1, a, direct, app, grant, t)
  }

  predicate NeedsPrompt(s: Kernel, a: Attempt, direct: bool, grant: Grant)
    requires Declares(s.registry, a.slot.cap)
  {
    grant.condition == RequiresApproval
    && !ClickIsConsent(direct, s.registry[a.slot.cap.provider].caps[a.slot.cap.name])
  }

  /** Record that approval was sought or work began, and reserve the invocation. */
  function Open(s: Kernel, a: Attempt, direct: bool, app: AppId, grant: Grant, t: Clock): (Kernel, Reply)
    requires Declares(s.registry, a.slot.cap)
  {
    if !Bound(s.handlers, a.slot.cap) then (s, Failure(HandlerNotBound))
    else if grant.condition == Notify && !direct && !a.noticeOk then (s, Failure(NoticeFailed))
    else
      var prompted := NeedsPrompt(s, a, direct, grant);
      var key := Key(a.slot, grant.id);
      var e := if prompted then ApprovalRequested(a.run, key) else Invoked(a.run, key);
      var id := s.nextInv;
      var (s1, ok) := Write(s, [Record(e, id)]);
      if !ok then (s1, Failure(Durability))
      else
        var p := Pending(a.run, app, a.slot, grant, s.registry[a.slot.cap.provider], t.now + a.timeout, false);
        (s1.(pending := s1.pending[id := p], tokens := s1.tokens[id := Prepared(prompted)], nextInv := id + 1),
         WorkPrepared(id, prompted))
  }

  /** A surface click: the kernel starts the run itself, and must not leak it. */
  function SurfaceAction(s: Kernel, app: AppId, a: Attempt, t: Clock): (Kernel, Reply) {
    var (s1, r) := StartRun(s, app, None);
    if !r.RunOpened? then (s1, r)
    else
      var (s2, r2) := Prepare(s1, a.(run := r.run), app == a.slot.cap.provider, t);
      if r2.Failure? then (EndRun(s2, r.run, RunFailed).0, r2) else (s2, r2)
  }

  // ----- Revalidation -----

  datatype Verdict = Live | RunGone | AppGone | Outdated | NotGranted(reason: DenialReason) | Stopped

  /** Whether prepared work may still proceed. A deadline crossing counts as cancellation. */
  function Revalidate(s: Kernel, id: InvId, t: Clock): Verdict
    requires id in s.pending
  {
    var p := s.pending[id];
    if p.run !in s.ledger.runs || !s.ledger.runs[p.run].active then RunGone
    else if p.app !in s.registry || p.slot.cap.provider !in s.registry then AppGone
    else if s.registry[p.slot.cap.provider] != p.hash then Outdated
    else
      var check := Check(s.broker, t.wall, p.app, p.slot);
      if check.Denied? then NotGranted(check.reason)
      else if check.grant.id != p.grant.id then Outdated
      else if p.deadline <= t.now || id in s.flags then Stopped
      else Live
  }

  /** Drop the reservation; a transition that consumed its token and failed needs recovery. */
  function Consume(s: Kernel, id: InvId, ok: bool): Kernel {
    s.(pending := s.pending - {id}, recovery := s.recovery || !ok)
  }

  /** Close work that may not proceed: a lost grant is a refusal, everything else a cancellation. */
  function CloseStale(s: Kernel, id: InvId, v: Verdict): (Kernel, Reply)
    requires id in s.pending
  {
    var p := s.pending[id];
    match v
    case NotGranted(reason) =>
      var (s1, ok) := Write(s, [Record(Refused(p.run, p.slot, reason), id)]);
      (Consume(s1, id, ok), if ok then Refusal(ByDenial(reason)) else Failure(Durability))
    case RunGone => (Consume(s, id, false), Failure(RunAlreadyEnded))
    case _ =>
      var s0 := if v.Stopped? then s.(flags := s.flags + {id}) else s;
      var (s1, ok) := Write(s0, [Record(Cancelled(p.run, p.slot), id)]);
      (Consume(s1, id, ok), if ok then Refusal(ByCancellation) else Failure(Durability))
  }

  // ----- Authorization -----

  /** Waiting for trusted chrome happens outside the kernel: a prompt gets an answer, no prompt gets none. */
  function AwaitApproval(s: Kernel, id: InvId, answer: bool): Kernel
    requires id in s.tokens && s.tokens[id].Prepared?
  {
    s.(tokens := s.tokens[id := Answered(if s.tokens[id].prompted then Some(answer) else None)])
  }

  /** The approval token is spent; unless work is dispatched, dropping it raises the cancellation flag. */
  function SpendToken(s: Kernel, id: InvId): Kernel {
    s.(tokens := s.tokens - {id}, flags := s.flags + {id})
  }

  function Authorize(s: Kernel, id: InvId, t: Clock): (Kernel, Reply)
    requires id in s.tokens && s.tokens[id].Answered?
  {
    var decision := s.tokens[id].decision;
    var s0 := s.(tokens := s.tokens - {id});
    if id !in s.pending || s.pending[id].authorized then (SpendToken(s0, id), Failure(Consumed))
    else if decision.None? then Dispatch(s0, id, t)
    else
      var p := s.pending[id];
      var e := if decision.value then ApprovalGranted(p.run, p.Key()) else ApprovalDenied(p.run, p.Key());
      var (s1, ok) := Write(s0, [Record(e, id)]);
      if !ok then (SpendToken(Consume(s1, id, false), id), Failure(Durability))
      else if !decision.value then (SpendToken(Consume(s1, id, true), id), Refusal(ByUser))
      else Dispatch(s1, id, t)
  }

  /** Revalidate and hand out the execution token. */
  function Dispatch(s: Kernel, id: InvId, t: Clock): (Kernel, Reply)
    requires id in s.pending
  {
    var p := s.pending[id];
    var v := Revalidate(s, id, t);
    if !v.Live? then
      var (s1, r) := CloseStale(s, id, v);
      (SpendToken(s1, id), r)
    else
      var (s1, ok) :=
        if p.grant.condition == RequiresApproval then Write(s, [Record(Invoked(p.run, p.Key()), id)]) else (s, true);
      if !ok then (SpendToken(Consume(s1, id, false), id), Failure(Durability))
      else if !Bound(s1.handlers, p.slot.cap) then (SpendToken(s1, id), Failure(HandlerNotBound))
      else (s1.(pending := s1.pending[id := p.(authorized := true)],
                tokens := s1.tokens[id := Authorized(p.deadline)]), Dispatched)
  }

  // ----- Execution and finalization -----

  /** Provider code runs outside the kernel, and not at all once cancellation was requested. */
  function Execute(s: Kernel, id: InvId, outcome: Execution, now: Time): Kernel
    requires id in s.tokens && s.tokens[id].Authorized?
  {
    if id in s.flags || s.tokens[id].deadline <= now
    then s.(flags := s.flags + {id}, tokens := s.tokens[id := Executed(Skipped)])
    else s.(tokens := s.tokens[id := Executed(outcome)])
  }

  function Finalize(s: Kernel, id: InvId, t: Clock): (Kernel, Reply)
    requires id in s.tokens && s.tokens[id].Executed?
  {
    var x := s.tokens[id].execution;
    var s0 := s.(tokens := s.tokens - {id});
    if id !in s.pending || !s.pending[id].authorized then (s0, Failure(Consumed))
    else
      var v := Revalidate(s0, id, t);
      if !v.Live? then CloseStale(s0, id, v)
      else if x.Skipped? then CloseStale(s0, id, Stopped)
      else if x.Returned? && x.resultOk && DraftsOk(s0, s0.pending[id].slot.cap.provider, x.drafts)
      then Complete(s0, id, x.drafts)
      else Fail(s0, id)
  }

  predicate DraftsOk(s: Kernel, provider: AppId, drafts: seq<Draft>) {
    forall d | d in drafts :: d.contentOk && provider in s.registry && d.kind in s.registry[provider].types
  }

  function Fail(s: Kernel, id: InvId): (Kernel, Reply)
    requires id in s.pending
  {
    var p := s.pending[id];
    var (s1, ok) := Write(s, [Record(Failed(p.run, p.Key()), id)]);
    (Consume(s1, id, ok), if ok then InvocationFailed else Failure(Durability))
  }

  /** Kernel-written provenance; drafts get consecutive new ids. */
  function Stamp(s: Kernel, id: InvId, drafts: seq<Draft>, a: ArtifactId): Artifact
    requires id in s.pending && s.nextId <= a < s.nextId + |drafts|
  {
    var p := s.pending[id];
    Artifact(a, drafts[a - s.nextId].kind, p.run, p.slot.cap, p.grant.id, p.slot.cap.provider)
  }

  function ProductionRecords(s: Kernel, id: InvId, drafts: seq<Draft>): (rs: seq<Record>)
    requires id in s.pending
    ensures |rs| == |drafts|
    ensures forall i | 0 <= i < |drafts| ::
              rs[i] == Record(Produced(s.pending[id].run, s.nextId + i, drafts[i].kind), id)
  {
    seq(|drafts|, i requires 0 <= i < |drafts| =>
      Record(Produced(s.pending[id].run, s.nextId + i, drafts[i].kind), id))
  }

  function StampedArtifacts(s: Kernel, id: InvId, drafts: seq<Draft>): map<ArtifactId, Artifact>
    requires id in s.pending
  {
    map a: ArtifactId | s.nextId <= a < s.nextId + |drafts| :: Stamp(s, id, drafts, a)
  }

  /** The artifacts, their production records and the completion become durable together or not at all. */
  function Complete(s: Kernel, id: InvId, drafts: seq<Draft>): (Kernel, Reply)
    requires id in s.pending
  {
    var p := s.pending[id];
    CommitCompletion(s, id, ProductionRecords(s, id, drafts) + [Record(Completed(p.run, p.Key()), id)],
                     StampedArtifacts(s, id, drafts), seq(|drafts|, i => s.nextId + i))
  }

  function CommitCompletion(s: Kernel, id: InvId, rs: seq<Record>, produced: map<ArtifactId, Artifact>, ids: seq<ArtifactId>):
    (r: (Kernel, Reply))
    ensures r.0.pending == s.pending - {id}
    ensures r.0.ledger == s.ledger || r.0.ledger.records == s.ledger.records + rs
    ensures r.0.disk.records == s.disk.records || r.0.disk.records == s.ledger.records + rs
    ensures r.0.registry == s.registry && (r.0.disk.registry == s.disk.registry || r.0.disk.registry == s.registry)
    ensures r.0.broker == s.broker && (r.0.disk.broker == s.disk.broker || r.0.disk.broker == s.broker)
    ensures r.0.artifacts == s.artifacts || r.0.artifacts == s.artifacts + produced
    ensures r.0.disk.artifacts == s.disk.artifacts || r.0.disk.artifacts == s.artifacts + produced
    ensures r.0.nextInv == s.nextInv && r.0.flags == s.flags && r.0.tokens == s.tokens
  {
    var s0 := s.(nextId := s.nextId + |ids|);
    match AppendAll(s.ledger, rs)
    case None => (Consume(s0, id, false), Failure(Durability))
    case Some(l) =>
      var artifacts := s.artifacts + produced;
      var (s1, ok) := Offer(s0, Projection(s).(records := l.records, artifacts := artifacts));
      if ok then (Consume(s1.(ledger := l, artifacts := artifacts), id, true), Finished(ids))
      else (Consume(s1, id, false), Failure(Durability))
  }

  // ----- Abandoning work -----

  function Abort(s: Kernel, id: InvId): (Kernel, Reply)
    requires id in s.tokens && (s.tokens[id].Prepared? || s.tokens[id].Authorized?)
  {
    if id !in s.pending then (SpendToken(s, id), Failure(Consumed))
    else
      var p := s.pending[id];
      var (s1, ok) := Write(s, [Record(Cancelled(p.run, p.slot), id)]);
      if ok then (SpendToken(s1.(pending := s1.pending - {id}), id), Refusal(ByCancellation))
      else (SpendToken(s1, id), Failure(Durability))
  }

  /** Letting a token go has no kernel at hand: it can only raise the flag. */
  function DropToken(s: Kernel, id: InvId): Kernel
    requires id in s.tokens
  {
    SpendToken(s, id)
  }

  function CancelRun(s: Kernel, run: RunId): Kernel {
    s.(flags := s.flags + PendingOfRun(s, run))
  }
}
