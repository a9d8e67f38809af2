/**
  Decisions carry through: a token moves only by calls made with it, the user's answer
  decides what authorizing does, a no is final, and every approval and completion in
  the ledger goes back to an answer the user gave and a result a handler returned.
 */
module Decisions {
  import opened Basics
  import opened Domain
  import opened Ledger
  import opened Broker
  import opened KernelState
  import opened ActionPath
  import opened Lifecycle
  import opened Recovery
  import opened KernelInvariant
  import opened Runs
  import opened History
  import opened NoLateResult
  import opened HeldWork
  import opened Reservations
  import opened Attribution
  import opened Consent

  // ----- A token moves only by its own calls -----

  predicate OnToken(c: Call, id: InvId) {
    && (c.DoAwaitApproval? || c.DoAuthorize? || c.DoExecute? || c.DoFinalize? || c.DoAbort? || c.DoDropToken?)
    && c.id == id
  }

  predicate SameToken(s: Kernel, s': Kernel, id: InvId) {
    (id in s'.tokens <==> id in s.tokens) && (id in s.tokens ==> s'.tokens[id] == s.tokens[id])
  }

  lemma PrepareLeavesTokens(s: Kernel, a: Attempt, direct: bool, t: Clock, id: InvId)
    requires id < s.nextInv
    ensures SameToken(s, Prepare(s, a, direct, t).0, id)
  {
    hide Write, Check, Reap, Open;
    ReapFewer(s, t.now);
    var (s1, ok) := Reap(s, t.now);
    if ok && Inadmissible(s1, a).None? {
      var app := s1.ledger.runs[a.run].app;
      var check := Check(s1.broker, t.wall, app, a.slot);
      if !check.Denied? {
        OpenLeavesTokens(s1, a, direct, app, check.grant, t, id);
      }
    }
  }

  lemma OpenLeavesTokens(s: Kernel, a: Attempt, direct: bool, app: AppId, grant: Grant, t: Clock, id: InvId)
    requires Declares(s.registry, a.slot.cap) && id < s.nextInv
    ensures SameToken(s, Open(s, a, direct, app, grant, t).0, id)
  {
    hide Write;
  }

  lemma SurfaceLeavesTokens(s: Kernel, app: AppId, a: Attempt, t: Clock, id: InvId)
    requires id < s.nextInv
    ensures SameToken(s, SurfaceAction(s, app, a, t).0, id)
  {
    hide StartRun, Prepare, EndRun;
    StartFewer(s, app, None);
    var (s1, r) := StartRun(s, app, None);
    if r.RunOpened? {
      PrepareLeavesTokens(s1, a.(run := r.run), app == a.slot.cap.provider, t, id);
      EndFewer(Prepare(s1, a.(run := r.run), app == a.slot.cap.provider, t).0, r.run, RunFailed);
    }
  }

  lemma OthersLeaveToken(s: Kernel, c: Call, id: InvId)
    requires Held(s) && !c.DoRestart? && !OnToken(c, id) && id < s.nextInv
    ensures SameToken(s, Step(s, c), id)
  {
    hide StartRun, Prepare, SurfaceAction, Authorize, Finalize, Abort, AwaitApproval, Execute, CancelRun, Held, HeldBy;
    if !Enabled(s, c) {
    } else if IsLifecycle(c) {
      LifecycleFewer(s, c);
    } else {
      match c
      case DoStartRun(app, parent) => StartFewer(s, app, parent);
      case DoPrepare(a, t) => PrepareLeavesTokens(s, a, false, t, id);
      case DoSurfaceAction(app, a, t) => SurfaceLeavesTokens(s, app, a, t, id);
      case DoAuthorize(x, t) => AuthorizeMoves(s, x, t);
      case DoFinalize(x, t) => FinalizeMoves(s, x, t);
      case DoAwaitApproval(x, answer) => AwaitMoves(s, x, answer);
      case DoExecute(x, outcome, t) => ExecuteMoves(s, x, outcome, t.now);
      case DoAbort(x) => AbortMoves(s, x);
      case DoDropToken(x) => DropMoves(s, x);
      case DoCancelRun(run) => CancelFewer(s, run);
    }
  }

  lemma DispatchToken(s: Kernel, id: InvId, t: Clock)
    requires id in s.pending && id !in s.tokens
    ensures var s' := Dispatch(s, id, t).0; id in s'.tokens ==> s'.tokens[id].Authorized?
  {
    hide Write, Revalidate;
  }

  lemma AuthorizeToken(s: Kernel, id: InvId, t: Clock)
    requires id in s.tokens && s.tokens[id].Answered?
    ensures var s' := Authorize(s, id, t).0; id in s'.tokens ==> s'.tokens[id].Authorized?
  {
    hide Write, Dispatch;
    var s0 := s.(tokens := s.tokens - {id});
    if id in s.pending {
      var p := s.pending[id];
      DispatchToken(s0, id, t);
      DispatchToken(Write(s0, [Record(ApprovalGranted(p.run, p.Key()), id)]).0, id, t);
    }
  }

  lemma FinalizeToken(s: Kernel, id: InvId, t: Clock)
    requires id in s.tokens && s.tokens[id].Executed?
    ensures id !in Finalize(s, id, t).0.tokens
  {
    hide Revalidate, CloseStale, Complete, Fail, DraftsOk;
    var s0, x := s.(tokens := s.tokens - {id}), s.tokens[id].execution;
    if id in s.pending {
      StaleCloses(s0, id, Revalidate(s0, id, t));
      StaleCloses(s0, id, Stopped);
      FailLeavesTokens(s0, id);
      CompleteLeavesTokens(s0, id, if x.Returned? then x.drafts else []);
    }
  }

  lemma FailLeavesTokens(s: Kernel, id: InvId)
    requires id in s.pending
    ensures Fail(s, id).0.tokens == s.tokens
  {
    hide Write;
  }

  lemma CompleteLeavesTokens(s: Kernel, id: InvId, drafts: seq<Draft>)
    requires id in s.pending
    ensures Complete(s, id, drafts).0.tokens == s.tokens
  {
    hide CommitCompletion, ProductionRecords, StampedArtifacts;
  }

  lemma AbortToken(s: Kernel, id: InvId)
    requires id in s.tokens && (s.tokens[id].Prepared? || s.tokens[id].Authorized?)
    ensures id !in Abort(s, id).0.tokens
  {
    hide Write;
  }

  /** Only waiting for approval makes an answered token, only executing an executed one. */
  lemma OwnCallMovesToken(s: Kernel, c: Call, id: InvId)
    requires Enabled(s, c) && OnToken(c, id)
    ensures var s' := Step(s, c);
            id in s'.tokens ==>
              match s'.tokens[id]
              case Prepared(_) => false
              case Answered(d) =>
                c.DoAwaitApproval? && s.tokens[id].Prepared? && d == if s.tokens[id].prompted then Some(c.answer) else None
              case Authorized(_) => c.DoAuthorize?
              case Executed(x) => c.DoExecute? && (x == c.outcome || x == Skipped)
  {
    hide Authorize, Finalize, Abort, StartRun, EndRun, Prepare, SurfaceAction, CommitGrant, RevokeGrant, CommitInstall,
         RevokeGrantsForResource, Upgrade, Uninstall, Restart, PlanOk;
    match c
    case DoAbort(_) => AbortToken(s, id);
    case DoAuthorize(_, t) => AuthorizeToken(s, id, t);
    case DoFinalize(_, t) => FinalizeToken(s, id, t);
    case _ =>
  }

  // ----- A no is final -----

  /** The invocation was refused by the user, and its token is spent or says so. */
  predicate Declined(s: Kernel, id: InvId) {
    id < s.nextInv && (id in s.tokens ==> s.tokens[id] == Answered(Some(false)))
  }

  /** Nothing but the record of the refusal, or of its being closed otherwise. */
  predicate OnlyCloses(id: InvId, r: Record) {
    r.inv == id && id != 0 ==> r.event.ApprovalDenied? || r.event.Refused? || r.event.Cancelled?
  }

  lemma WarrantedIfDeclined(s: Kernel, c: Call, id: InvId, r: Record)
    requires Declined(s, id) && Warranted(s, c, r)
    ensures OnlyCloses(id, r)
  {
    hide Check;
  }

  lemma DeclinedStep(s: Kernel, c: Call, id: InvId)
    requires Inv(s) && Held(s) && Declined(s, id) && !c.DoRestart?
    ensures Declined(Step(s, c), id)
    ensures var before, after := s.ledger.records, Step(s, c).ledger.records;
            before <= after && forall k | |before| <= k < |after| :: OnlyCloses(id, after[k])
  {
    hide Inv, Held, Step, Warranted, OnlyCloses;
    StepAccounted(s, c);
    StepEvolves(s, c);
    var before, after := s.ledger.records, Step(s, c).ledger.records;
    forall k | |before| <= k < |after| ensures OnlyCloses(id, after[k]) {
      WarrantedIfDeclined(s, c, id, after[k]);
    }
    if !OnToken(c, id) {
      OthersLeaveToken(s, c, id);
    } else if Enabled(s, c) {
      OwnCallMovesToken(s, c, id);
      DeclinedCalls(s, c, id);
      if c.DoAuthorize? {
        DispatchedInTime(s, id, c.t);
        AuthorizeIs(s, c);
      }
    } else {
      SkippedCall(s, c);
    }
  }

  lemma SkippedCall(s: Kernel, c: Call)
    requires !Enabled(s, c)
    ensures Step(s, c) == s
  {
  }

  lemma DeclinedCalls(s: Kernel, c: Call, id: InvId)
    requires Declined(s, id) && Enabled(s, c) && OnToken(c, id)
    ensures c.DoAuthorize? || c.DoDropToken?
  {
  }

  lemma {:induction false} DeclinedRun(s: Kernel, calls: seq<Call>, id: InvId)
    requires Inv(s) && Held(s) && Declined(s, id) && forall c | c in calls :: !c.DoRestart?
    ensures Inv(Run(s, calls)) && Held(Run(s, calls)) && Declined(Run(s, calls), id)
    ensures var before, after := s.ledger.records, Run(s, calls).ledger.records;
            before <= after && forall k | |before| <= k < |after| :: OnlyCloses(id, after[k])
  {
    hide Inv, Held, Step, Declined, OnlyCloses;
    if calls != [] {
      var n := |calls| - 1;
      assert calls[n] in calls;
      DeclinedRun(s, calls[..n], id);
      var s1 := Run(s, calls[..n]);
      StepInv(s1, calls[n]);
      HeldStep(s1, calls[n]);
      DeclinedStep(s1, calls[n], id);
    }
  }

  /**
    Once the user said no, and whatever is called before the next restart: the invocation
    is never recorded as approved, begun, productive, completed or failed, and never dispatched.
   */
  lemma DenialIsFinal(script: seq<CommitOutcome>, calls: seq<Call>, id: InvId, later: seq<Call>, t: Clock)
    requires var s := Run(Init(script), calls); id in s.tokens && s.tokens[id] == Prepared(true)
    requires forall c | c in later :: !c.DoRestart?
    ensures var s1 := Step(Run(Init(script), calls), DoAwaitApproval(id, false));
            var s2 := Run(s1, later);
            && id != 0 && s1.ledger.records <= s2.ledger.records
            && (forall k | |s1.ledger.records| <= k < |s2.ledger.records| && s2.ledger.records[k].inv == id ::
                  var e := s2.ledger.records[k].event; e.ApprovalDenied? || e.Refused? || e.Cancelled?)
            && (id in s2.tokens && s2.tokens[id].Answered? ==> Authorize(s2, id, t).1 != Dispatched)
  {
    hide Inv, Held, Run, Step, Authorize;
    var s := Run(Init(script), calls);
    ReachableInv(script, calls);
    ReachableHeld(script, calls);
    var s1 := Step(s, DoAwaitApproval(id, false));
    StepInv(s, DoAwaitApproval(id, false));
    HeldStep(s, DoAwaitApproval(id, false));
    TokenInUse(s, id);
    OwnCallMovesToken(s, DoAwaitApproval(id, false), id);
    OthersOpenNothing(s, DoAwaitApproval(id, false));
    DeclinedRun(s1, later, id);
    var s2 := Run(s1, later);
    assert forall k | |s1.ledger.records| <= k < |s2.ledger.records| :: OnlyCloses(id, s2.ledger.records[k]);
    if id in s2.tokens && s2.tokens[id].Answered? {
      DispatchedInTime(s2, id, t);
    }
  }

  lemma TokenInUse(s: Kernel, id: InvId)
    requires Inv(s) && id in s.tokens
    ensures 1 <= id < s.nextInv
  {
    hide StateOk, HandlersOk, PendingOk, DiskOk;
  }

  // ----- The answer decides -----

  lemma {:induction false} TokenKept(s: Kernel, calls: seq<Call>, id: InvId)
    requires Inv(s) && Held(s) && id < s.nextInv && forall c | c in calls :: !c.DoRestart? && !OnToken(c, id)
    ensures Inv(Run(s, calls)) && SameToken(s, Run(s, calls), id)
    ensures Held(Run(s, calls)) && s.nextInv <= Run(s, calls).nextInv
  {
    hide Inv, Held, Step;
    if calls != [] {
      var n := |calls| - 1;
      assert calls[n] in calls;
      TokenKept(s, calls[..n], id);
      var s1 := Run(s, calls[..n]);
      StepInv(s1, calls[n]);
      HeldStep(s1, calls[n]);
      StepEvolves(s1, calls[n]);
      OthersLeaveToken(s1, calls[n], id);
    }
  }

  /** With a store that commits, a recorded answer is followed by a refusal or by whatever dispatching adds. */
  lemma AnswerRecorded(s: Kernel, id: InvId, t: Clock)
    requires Inv(s) && Willing(s) && id in s.tokens && s.tokens[id].Answered? && s.tokens[id].decision.Some?
    requires id in s.pending && !s.pending[id].authorized
    ensures var (s', r) := Authorize(s, id, t);
            var p := s.pending[id];
            if s.tokens[id].decision.value
            then s.ledger.records + [Record(ApprovalGranted(p.run, p.Key()), id)] <= s'.ledger.records && r != Refusal(ByUser)
            else && s'.ledger.records == s.ledger.records + [Record(ApprovalDenied(p.run, p.Key()), id)]
                 && r == Refusal(ByUser) && s'.pending == s.pending - {id}
  {
    hide Inv, Write, Dispatch;
    var s0, p := s.(tokens := s.tokens - {id}), s.pending[id];
    var approved := s.tokens[id].decision.value;
    var e := if approved then ApprovalGranted(p.run, p.Key()) else ApprovalDenied(p.run, p.Key());
    EntryFacts(s, id);
    AppendQuiet(s0.ledger, [Record(e, id)]);
    WillingWrite(s0, [Record(e, id)]);
    var s1 := Write(s0, [Record(e, id)]).0;
    if approved {
      DispatchEvolves(s1, id, t);
      DispatchNeverByUser(s1, id, t);
    }
  }

  lemma DispatchNeverByUser(s: Kernel, id: InvId, t: Clock)
    requires id in s.pending
    ensures Dispatch(s, id, t).1 != Refusal(ByUser)
  {
    hide Write, Revalidate;
  }

  /**
    The user's answer to a prompt is the one that counts when the work is authorized, however
    much else was called in between: a no is recorded as such and ends the work, a yes is
    recorded as an approval.
   */
  lemma AnswerDecides(script: seq<CommitOutcome>, calls: seq<Call>, id: InvId, answer: bool, later: seq<Call>, t: Clock)
    requires var s := Run(Init(script), calls); id in s.tokens && s.tokens[id] == Prepared(true)
    requires forall c | c in later :: !c.DoRestart? && !OnToken(c, id)
    ensures var s := Run(Step(Run(Init(script), calls), DoAwaitApproval(id, answer)), later);
            && id in s.tokens && s.tokens[id].Answered?
            && (Willing(s) && id in s.pending && !s.pending[id].authorized ==>
                  var (s', r), p := Authorize(s, id, t), s.pending[id];
                  if answer
                  then s.ledger.records + [Record(ApprovalGranted(p.run, p.Key()), id)] <= s'.ledger.records && r != Refusal(ByUser)
                  else && s'.ledger.records == s.ledger.records + [Record(ApprovalDenied(p.run, p.Key()), id)]
                       && r == Refusal(ByUser) && s'.pending == s.pending - {id})
  {
    hide Inv, Held, Run, Step, Authorize;
    var s0, c := Run(Init(script), calls), DoAwaitApproval(id, answer);
    ReachableInv(script, calls);
    ReachableHeld(script, calls);
    StepInv(s0, c);
    HeldStep(s0, c);
    TokenInUse(s0, id);
    AwaitAnswers(s0, id, answer);
    OthersOpenNothing(s0, c);
    var s1 := Step(s0, c);
    TokenKept(s1, later, id);
    var s := Run(s1, later);
    if Willing(s) && id in s.pending && !s.pending[id].authorized {
      AnswerRecorded(s, id, t);
    }
  }

  lemma AwaitAnswers(s: Kernel, id: InvId, answer: bool)
    requires id in s.tokens && s.tokens[id] == Prepared(true)
    ensures var s' := Step(s, DoAwaitApproval(id, answer)); id in s'.tokens && s'.tokens[id] == Answered(Some(answer))
  {
  }

  // ----- Where approvals and results come from -----

  /** Within a session: answers were given, and results returned, by calls that were made. */
  ghost predicate Traced(calls: seq<Call>, id: InvId, t: Token) {
    match t
    case Prepared(_) => true
    case Answered(d) => d.Some? ==> DoAwaitApproval(id, d.value) in calls
    case Authorized(_) => true
    case Executed(x) => !x.Skipped? ==> exists clock :: DoExecute(id, x, clock) in calls
  }

  ghost predicate TracedRecord(calls: seq<Call>, r: Record) {
    match r.event
    case ApprovalGranted(_, _) => DoAwaitApproval(r.inv, true) in calls
    case ApprovalDenied(_, _) => DoAwaitApproval(r.inv, false) in calls
    case Completed(_, _) => exists x, clock :: DoExecute(r.inv, x, clock) in calls && x.Returned? && x.resultOk
    case Produced(_, _, kind) =>
      exists x, clock, d :: DoExecute(r.inv, x, clock) in calls && x.Returned? && x.resultOk
        && d in x.drafts && d.contentOk && d.kind == kind
    case _ => true
  }

  lemma TracedMore(calls: seq<Call>, c: Call, id: InvId, t: Token, r: Record)
    ensures Traced(calls, id, t) ==> Traced(calls + [c], id, t)
    ensures TracedRecord(calls, r) ==> TracedRecord(calls + [c], r)
  {
  }

  lemma WarrantedIsTraced(s: Kernel, calls: seq<Call>, c: Call, r: Record)
    requires (forall id | id in s.tokens :: Traced(calls, id, s.tokens[id])) && Warranted(s, c, r)
    ensures TracedRecord(calls, r)
  {
    hide Check;
    if r.event.ApprovalGranted? || r.event.ApprovalDenied? || r.event.Completed? || r.event.Produced? {
      assert Traced(calls, r.inv, s.tokens[r.inv]);
    }
  }

  lemma TracedStep(s: Kernel, calls: seq<Call>, c: Call, id: InvId)
    requires Inv(s) && Held(s) && !c.DoRestart? && id in Step(s, c).tokens
    requires id in s.tokens ==> Traced(calls, id, s.tokens[id])
    ensures Traced(calls + [c], id, Step(s, c).tokens[id])
  {
    hide Inv, Held, Step, Traced;
    if s.nextInv <= id {
      NewTokenIsPrepared(s, c, id);
      PreparedIsTraced(calls + [c], id, Step(s, c).tokens[id]);
    } else if !OnToken(c, id) {
      OthersLeaveToken(s, c, id);
      TracedMore(calls, c, id, s.tokens[id], Record(RunEnded(0, RunFailed), 0));
    } else if Enabled(s, c) {
      OwnCallMovesToken(s, c, id);
      OwnIsTraced(s, calls, c, id, Step(s, c).tokens[id]);
    } else {
      SkippedCall(s, c);
      TracedMore(calls, c, id, s.tokens[id], Record(RunEnded(0, RunFailed), 0));
    }
  }

  lemma PreparedIsTraced(calls: seq<Call>, id: InvId, t: Token)
    requires t.Prepared?
    ensures Traced(calls, id, t)
  {
  }

  lemma OwnIsTraced(s: Kernel, calls: seq<Call>, c: Call, id: InvId, t: Token)
    requires id in s.tokens && OnToken(c, id) && !t.Prepared?
    requires t.Answered? ==> && c.DoAwaitApproval? && s.tokens[id].Prepared?
                             && t.decision == if s.tokens[id].prompted then Some(c.answer) else None
    requires t.Executed? ==> c.DoExecute? && (t.execution == c.outcome || t.execution == Skipped)
    ensures Traced(calls + [c], id, t)
  {
    assert c in calls + [c];
    if t.Executed? && !t.execution.Skipped? {
      assert c == DoExecute(id, t.execution, c.t);
    }
  }

  lemma NewTokenIsPrepared(s: Kernel, c: Call, id: InvId)
    requires Inv(s) && Held(s) && !c.DoRestart? && id in Step(s, c).tokens && s.nextInv <= id
    ensures Step(s, c).tokens[id].Prepared?
  {
    hide Inv, Held, Prepare, SurfaceAction, OpenedAs, StartRun;
    var s' := Step(s, c);
    StepInv(s, c);
    TokenInUse(s', id);
    if !Enabled(s, c) {
      assert false;
    } else if c.DoPrepare? {
      PromptedIff(s, c.attempt, false, c.t);
      var r := Prepare(s, c.attempt, false, c.t).1;
      OpenedToken(s, c.attempt, false, s', r.id, r.prompted);
    } else if c.DoSurfaceAction? {
      SurfaceOpens(s, c.app, c.attempt, c.t);
      var r := SurfaceAction(s, c.app, c.attempt, c.t).1;
      OpenedToken(StartRun(s, c.app, None).0, c.attempt.(run := s.nextId), c.app == c.attempt.slot.cap.provider, s', r.id, r.prompted);
    } else {
      OthersOpenNothing(s, c);
    }
  }

  lemma OpenedToken(s: Kernel, a: Attempt, direct: bool, s': Kernel, id: InvId, prompted: bool)
    requires OpenedAs(s, a, direct, s', id, prompted)
    ensures id == s.nextInv && s'.nextInv == id + 1 && id in s'.tokens && s'.tokens[id].Prepared?
  {
  }

  lemma {:induction false} TracedRun(s: Kernel, calls: seq<Call>)
    requires Inv(s) && Held(s) && s.tokens == map[] && forall c | c in calls :: !c.DoRestart?
    ensures Inv(Run(s, calls)) && Held(Run(s, calls))
    ensures forall id | id in Run(s, calls).tokens :: Traced(calls, id, Run(s, calls).tokens[id])
    ensures var before, after := s.ledger.records, Run(s, calls).ledger.records;
            before <= after && forall k | |before| <= k < |after| :: TracedRecord(calls, after[k])
  {
    hide Inv, Held, Step, Traced, TracedRecord, Warranted;
    if calls != [] {
      var n := |calls| - 1;
      var first, c, s1 := calls[..n], calls[n], Run(s, calls[..n]);
      assert calls == first + [c];
      TracedRun(s, first);
      StepInv(s1, c);
      HeldStep(s1, c);
      StepAccounted(s1, c);
      var s2 := Run(s, calls);
      forall id | id in s2.tokens ensures Traced(calls, id, s2.tokens[id]) {
        TracedStep(s1, first, c, id);
      }
      forall k | |s.ledger.records| <= k < |s2.ledger.records| ensures TracedRecord(calls, s2.ledger.records[k]) {
        if |s1.ledger.records| <= k {
          WarrantedIsTraced(s1, first, c, s2.ledger.records[k]);
        }
        TracedMore(first, c, 0, Prepared(false), s2.ledger.records[k]);
      }
    }
  }

  /**
    In a session, from the start or from any restart on: every approval and denial recorded
    is an answer the user gave to that invocation, every completion follows a valid result a
    handler returned for it, and every artifact is a valid draft of such a result.
   */
  lemma RecordsGoBackToCalls(script: seq<CommitOutcome>, earlier: seq<Call>, calls: seq<Call>, k: nat)
    requires earlier == [] || earlier[|earlier| - 1].DoRestart?
    requires forall c | c in calls :: !c.DoRestart?
    ensures var s := Run(Init(script), earlier);
            var records := Run(s, calls).ledger.records;
            |s.ledger.records| <= k < |records| ==> TracedRecord(calls, records[k])
  {
    hide Inv, Held, TracedRecord;
    var s := Run(Init(script), earlier);
    ReachableInv(script, earlier);
    ReachableHeld(script, earlier);
    assert s.tokens == map[] by {
      if earlier != [] {
        var n := |earlier| - 1;
        RestartHasNoTokens(Run(Init(script), earlier[..n]), earlier[n]);
      }
    }
    TracedRun(s, calls);
  }

  lemma RestartHasNoTokens(s: Kernel, c: Call)
    requires c.DoRestart?
    ensures Step(s, c).tokens == map[]
  {
    hide Write, Bootable, ClosingEvents, AllActive;
  }
}
