/**
  Consent: work whose grant requires approval is done only with the user's yes, or on
  a click in the provider's own surface for something bounded; and a no is final.
 */
module Consent {
  import opened Basics
  import opened Domain
  import opened Broker
  import opened KernelState
  import opened ActionPath
  import opened Recovery
  import opened KernelInvariant
  import opened ActionInvariant
  import opened Runs
  import opened History
  import opened NoLateResult
  import opened HeldWork
  import opened Attribution

  // ----- When a prompt is raised -----

  /** What preparing made of the attempt. */
  predicate OpenedAs(s: Kernel, a: Attempt, direct: bool, s': Kernel, id: InvId, prompted: bool) {
    && id == s.nextInv && s'.nextInv == id + 1 && id in s'.pending && id in s'.tokens
    && s'.tokens[id] == Prepared(prompted)
    && var p := s'.pending[id];
    && a.run in s.ledger.runs && p.app == s.ledger.runs[a.run].app && p.run == a.run && p.slot == a.slot
    && p.slot.cap.provider in s.registry && p.hash == s.registry[p.slot.cap.provider]
    && p.slot.cap.name in p.hash.caps
    && (prompted <==>
          p.grant.condition == RequiresApproval
          && !(direct && (p.hash.caps[p.slot.cap.name] == ReadOnly || p.hash.caps[p.slot.cap.name] == LocalWrite)))
    && var n := |s'.ledger.records|;
    && n > |s.ledger.records|
    && s'.ledger.records[n - 1] == Record(if prompted then ApprovalRequested(p.run, p.Key()) else Invoked(p.run, p.Key()), id)
  }

  /**
    Preparing asks for approval exactly if the grant requires it and the attempt is not a
    click in the provider's own surface for something that only reads or writes locally.
    What it does is recorded last, as a request for approval or as work begun.
   */
  lemma PromptedIff(s: Kernel, a: Attempt, direct: bool, t: Clock)
    requires Inv(s)
    ensures var (s', r) := Prepare(s, a, direct, t);
            if r.WorkPrepared? then OpenedAs(s, a, direct, s', r.id, r.prompted) else s'.nextInv == s.nextInv
  {
    hide Inv, Write, Reap, Check, Open, OpenedAs;
    var (s1, ok) := Reap(s, t.now);
    ReapKeepsRuns(s, t.now);
    ReapKeepsApps(s, t.now);
    ReapFewer(s, t.now);
    ReapEvolves(s, t.now);
    if ok && Inadmissible(s1, a).None? {
      var app := s1.ledger.runs[a.run].app;
      var check := Check(s1.broker, t.wall, app, a.slot);
      if !check.Denied? {
        OpenPrompts(s1, a, direct, app, check.grant, t);
        FromReaped(s, s1, a, direct, Prepare(s, a, direct, t).0, Prepare(s, a, direct, t).1);
      }
    }
  }

  lemma OpenPrompts(s: Kernel, a: Attempt, direct: bool, app: AppId, grant: Grant, t: Clock)
    requires Declares(s.registry, a.slot.cap) && a.run in s.ledger.runs && app == s.ledger.runs[a.run].app
    ensures var (s', r) := Open(s, a, direct, app, grant, t);
            if r.WorkPrepared? then OpenedAs(s, a, direct, s', r.id, r.prompted) else s'.nextInv == s.nextInv
  {
    hide Write;
  }

  lemma FromReaped(s: Kernel, s1: Kernel, a: Attempt, direct: bool, s': Kernel, r: Reply)
    requires s1.nextInv == s.nextInv && s1.ledger.runs == s.ledger.runs && s1.registry == s.registry
    requires |s.ledger.records| <= |s1.ledger.records|
    ensures r.WorkPrepared? && OpenedAs(s1, a, direct, s', r.id, r.prompted) ==> OpenedAs(s, a, direct, s', r.id, r.prompted)
  {
  }

  // ----- Consent over every history -----

  /** The acting app is the provider, and the effect it declared only reads or writes locally. */
  predicate InOwnSurface(p: Pending) {
    && p.app == p.slot.cap.provider && p.slot.cap.name in p.hash.caps
    && (p.hash.caps[p.slot.cap.name] == ReadOnly || p.hash.caps[p.slot.cap.name] == LocalWrite)
  }

  ghost predicate Asked(records: seq<Record>, id: InvId) {
    exists k :: AskedAt(records, k, id)
  }

  /** The approval of this invocation was requested and, later, granted. */
  ghost predicate Approved(records: seq<Record>, id: InvId) {
    exists i, j :: AskedAt(records, i, id) && i < j < |records|
      && records[j] == Record(ApprovalGranted(records[i].event.run, records[i].event.key), id)
  }

  ghost predicate AskedOrBounded(records: seq<Record>, id: InvId, p: Pending) {
    p.grant.condition == RequiresApproval ==> Asked(records, id) || InOwnSurface(p)
  }

  ghost predicate Consented(s: Kernel) {
    forall id | id in s.pending :: AskedOrBounded(s.ledger.records, id, s.pending[id])
  }

  lemma OthersOpenNothing(s: Kernel, c: Call)
    requires Held(s) && Enabled(s, c) && !c.DoPrepare? && !c.DoSurfaceAction? && !c.DoRestart?
    ensures Step(s, c).nextInv == s.nextInv
  {
    hide StartRun, Authorize, Finalize, Abort, AwaitApproval, Execute, CancelRun, Held, HeldBy;
    if IsLifecycle(c) {
      LifecycleFewer(s, c);
    } else {
      match c
      case DoStartRun(app, parent) => StartFewer(s, app, parent);
      case DoAuthorize(id, t) => AuthorizeMoves(s, id, t);
      case DoFinalize(id, t) => FinalizeMoves(s, id, t);
      case DoAwaitApproval(id, answer) => AwaitMoves(s, id, answer);
      case DoExecute(id, outcome, t) => ExecuteMoves(s, id, outcome, t.now);
      case DoAbort(id) => AbortMoves(s, id);
      case DoDropToken(id) => DropMoves(s, id);
      case DoCancelRun(run) => CancelFewer(s, run);
    }
  }

  lemma SurfaceOpens(s: Kernel, app: AppId, a: Attempt, t: Clock)
    requires Inv(s)
    ensures var s1, (s', r) := StartRun(s, app, None).0, SurfaceAction(s, app, a, t);
            if r.WorkPrepared?
            then && OpenedAs(s1, a.(run := s.nextId), app == a.slot.cap.provider, s', r.id, r.prompted)
                 && s1.nextInv == s.nextInv && s1.ledger.runs[s.nextId].app == app
            else s'.nextInv == s.nextInv
  {
    hide Inv, StartRun, Prepare, EndRun, OpenedAs;
    StartFewer(s, app, None);
    StartRunInv(s, app, None);
    StartAnswers(s, app);
    var (s1, r) := StartRun(s, app, None);
    if r.RunOpened? {
      SurfaceEnters(s, app, a, t);
      var own := app == a.slot.cap.provider;
      PromptedIff(s1, a.(run := r.run), own, t);
      var (s2, r2) := Prepare(s1, a.(run := r.run), own, t);
      EndFewer(s2, r.run, RunFailed);
      if r2.WorkPrepared? {
        RunKnown(s1, a.(run := r.run), own, s2, r2);
      }
    }
  }

  lemma StartAnswers(s: Kernel, app: AppId)
    ensures !StartRun(s, app, None).1.WorkPrepared?
  {
    hide Write;
  }

  lemma RunKnown(s: Kernel, a: Attempt, direct: bool, s': Kernel, r: Reply)
    requires r.WorkPrepared? && OpenedAs(s, a, direct, s', r.id, r.prompted)
    ensures a.run in s.ledger.runs
  {
  }

  lemma OpenedConsented(s: Kernel, a: Attempt, direct: bool, s': Kernel, id: InvId, prompted: bool)
    requires OpenedAs(s, a, direct, s', id, prompted)
    requires direct ==> s.ledger.runs[a.run].app == a.slot.cap.provider
    ensures AskedOrBounded(s'.ledger.records, id, s'.pending[id])
  {
    if prompted {
      assert AskedAt(s'.ledger.records, |s'.ledger.records| - 1, id);
    }
  }

  lemma KeptConsented(s: Kernel, s': Kernel, id: InvId)
    requires Evolves(s, s') && id in s'.pending && id < s.nextInv
    requires id in s.pending ==> AskedOrBounded(s.ledger.records, id, s.pending[id])
    ensures AskedOrBounded(s'.ledger.records, id, s'.pending[id])
  {
    if k :| AskedAt(s.ledger.records, k, id) {
      assert AskedAt(s'.ledger.records, k, id);
    }
  }

  lemma BootConsented(s: Kernel, script: seq<CommitOutcome>)
    ensures Consented(Restart(s, script).0)
  {
    hide Write, Bootable, ClosingEvents;
  }

  lemma NewConsented(s: Kernel, c: Call, id: InvId)
    requires Inv(s) && Held(s) && Enabled(s, c) && !c.DoRestart? && id in Step(s, c).pending && s.nextInv <= id
    ensures AskedOrBounded(Step(s, c).ledger.records, id, Step(s, c).pending[id])
  {
    hide Inv, Held, Prepare, SurfaceAction, OpenedAs, AskedOrBounded, StartRun;
    var s' := Step(s, c);
    StepInv(s, c);
    EntryFacts(s', id);
    if c.DoPrepare? {
      PromptedIff(s, c.attempt, false, c.t);
      var r := Prepare(s, c.attempt, false, c.t).1;
      OpenedId(s, c.attempt, false, s', r.id, r.prompted);
      OpenedConsented(s, c.attempt, false, s', r.id, r.prompted);
    } else if c.DoSurfaceAction? {
      SurfaceOpens(s, c.app, c.attempt, c.t);
      var s1, r := StartRun(s, c.app, None).0, SurfaceAction(s, c.app, c.attempt, c.t).1;
      var a, own := c.attempt.(run := s.nextId), c.app == c.attempt.slot.cap.provider;
      OpenedId(s1, a, own, s', r.id, r.prompted);
      OpenedConsented(s1, a, own, s', r.id, r.prompted);
    } else {
      OthersOpenNothing(s, c);
    }
  }

  lemma OpenedId(s: Kernel, a: Attempt, direct: bool, s': Kernel, id: InvId, prompted: bool)
    requires OpenedAs(s, a, direct, s', id, prompted)
    ensures id == s.nextInv && s'.nextInv == id + 1
  {
  }

  lemma StepConsented(s: Kernel, c: Call)
    requires Inv(s) && Held(s) && Consented(s)
    ensures Consented(Step(s, c))
  {
    hide Inv, Held, Apply, AskedOrBounded, Restart, Evolves, EvolvesQuietly;
    if Enabled(s, c) {
      if c.DoRestart? {
        BootConsented(s, c.script);
        Restarts(s, c);
      } else {
        StepEvolves(s, c);
        var s' := Step(s, c);
        forall id | id in s'.pending ensures AskedOrBounded(s'.ledger.records, id, s'.pending[id]) {
          if id < s.nextInv {
            KeptConsented(s, s', id);
          } else {
            NewConsented(s, c, id);
          }
        }
      }
    }
  }

  lemma {:induction false} ReachableConsented(script: seq<CommitOutcome>, calls: seq<Call>)
    ensures Consented(Run(Init(script), calls))
  {
    hide Inv, Held, Step, Consented;
    if calls == [] {
      NothingPending(script);
    } else {
      var n := |calls| - 1;
      ReachableConsented(script, calls[..n]);
      ReachableInv(script, calls[..n]);
      ReachableHeld(script, calls[..n]);
      StepConsented(Run(Init(script), calls[..n]), calls[n]);
    }
  }

  lemma NothingPending(script: seq<CommitOutcome>)
    ensures Consented(Init(script))
  {
  }

  /**
    In every reachable state: work whose grant requires approval is dispatched, and an
    artifact or completion is recorded for it, only after its approval was requested and
    granted, unless the acting app is the provider and the effect it declared only reads
    or writes locally.
   */
  lemma ExecutesWithConsent(script: seq<CommitOutcome>, calls: seq<Call>, c: Call, k: nat)
    requires !c.DoRestart?
    ensures var s := Run(Init(script), calls);
            var s' := Step(s, c);
            && (c.DoAuthorize? && Enabled(s, c) && Authorize(s, c.id, c.t).1 == Dispatched ==>
                  && c.id in s.pending
                  && (s.pending[c.id].grant.condition == RequiresApproval ==>
                        Approved(s'.ledger.records, c.id) || InOwnSurface(s.pending[c.id])))
            && (|s.ledger.records| <= k < |s'.ledger.records| && IsResult(s'.ledger.records[k].event) ==>
                  && var id := s'.ledger.records[k].inv;
                  && id in s.pending
                  && (s.pending[id].grant.condition == RequiresApproval ==>
                        Approved(s.ledger.records, id) || InOwnSurface(s.pending[id])))
  {
    hide Inv, Run, Apply, Authorize, MayProceed, ApprovedIfAsked, Approved, InOwnSurface;
    var s := Run(Init(script), calls);
    var s' := Step(s, c);
    ReachableConsented(script, calls);
    if |s.ledger.records| <= k < |s'.ledger.records| && IsResult(s'.ledger.records[k].event) {
      ResultsInTime(script, calls, c, k);
      ProceedsPending(s, c.id, c.t);
      ApprovedOrBounded(s.ledger.records, s.ledger.records, c.id, s.pending[c.id]);
    }
    if c.DoAuthorize? && Enabled(s, c) && Authorize(s, c.id, c.t).1 == Dispatched {
      DispatchesInTime(script, calls, c.id, c.t);
      ProceedsPending(s, c.id, c.t);
      AuthorizeIs(s, c);
      ReachableInv(script, calls);
      StepEvolves(s, c);
      ApprovedOrBounded(s.ledger.records, s'.ledger.records, c.id, s.pending[c.id]);
    }
  }

  lemma ProceedsPending(s: Kernel, id: InvId, t: Clock)
    requires MayProceed(s, id, t)
    ensures id in s.pending
  {
  }

  lemma AuthorizeIs(s: Kernel, c: Call)
    requires c.DoAuthorize? && Enabled(s, c)
    ensures Step(s, c) == Authorize(s, c.id, c.t).0
  {
    hide Authorize;
  }

  lemma ApprovedOrBounded(before: seq<Record>, records: seq<Record>, id: InvId, p: Pending)
    requires before <= records && AskedOrBounded(before, id, p) && ApprovedIfAsked(records, id)
    ensures p.grant.condition == RequiresApproval ==> Approved(records, id) || InOwnSurface(p)
  {
    if k :| AskedAt(before, k, id) {
      assert AskedAt(records, k, id);
    }
  }
}
