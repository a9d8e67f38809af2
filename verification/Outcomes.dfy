/**
  What each operation comes to, against a store that commits: which attempts are
  answered how, and exactly what is recorded then.
 */
module Outcomes {
  import opened Basics
  import opened Domain
  import opened Ledger
  import opened Broker
  import opened KernelState
  import opened ActionPath
  import opened KernelInvariant
  import opened ActionInvariant
  import opened Runs
  import opened NoLateResult
  import opened HeldWork
  import opened Reservations
  import opened Attribution

  // ----- Work that may go on -----

  /** The broker would pick this work's grant again. */
  predicate StillChosen(s: Kernel, id: InvId, t: Clock)
    requires id in s.pending
  {
    var p := s.pending[id];
    var check := Check(s.broker, t.wall, p.app, p.slot);
    !check.Denied? && check.grant == p.grant
  }

  predicate Proceeds(s: Kernel, id: InvId, t: Clock) {
    MayProceed(s, id, t) && StillChosen(s, id, t)
  }

  lemma ProceedsIffLive(s: Kernel, id: InvId, t: Clock)
    requires Inv(s) && id in s.pending
    ensures Revalidate(s, id, t).Live? <==> Proceeds(s, id, t)
  {
    hide Inv;
    EntryFacts(s, id);
    var p := s.pending[id];
    var check := Check(s.broker, t.wall, p.app, p.slot);
    if !check.Denied? && check.grant.id == p.grant.id {
      OneGrantPerId(s, check.grant, p.grant);
    }
  }

  lemma Commits(s: Kernel, rs: seq<Record>)
    requires Willing(s) && Quiet(s.ledger.runs, rs)
    ensures var (s', ok) := Write(s, rs);
            ok && Willing(s') && s'.ledger == RunLedger(s.ledger.records + rs, s.ledger.runs)
  {
    AppendQuiet(s.ledger, rs);
  }

  /** The work is gone and the ledger has these records on top; apps, grants and runs are as before. */
  predicate EndsWith(s: Kernel, s': Kernel, id: InvId, rs: seq<Record>) {
    && s'.ledger == RunLedger(s.ledger.records + rs, s.ledger.runs) && s'.pending == s.pending - {id}
    && s'.registry == s.registry && s'.broker == s.broker && s'.handlers == s.handlers && !s'.recovery
  }

  /** Why work that may not go on is closed: nothing entitles it any more, or it is out of date, late or cancelled. */
  function Closing(s: Kernel, id: InvId, t: Clock): (Event, RefusalReason)
    requires id in s.pending && s.pending[id].slot.cap.provider in s.registry
  {
    var p := s.pending[id];
    var check := Check(s.broker, t.wall, p.app, p.slot);
    if s.registry[p.slot.cap.provider] == p.hash && check.Denied?
    then (Refused(p.run, p.slot, check.reason), ByDenial(check.reason))
    else (Cancelled(p.run, p.slot), ByCancellation)
  }

  lemma StaleOutcome(s: Kernel, id: InvId, t: Clock)
    requires Inv(s) && Willing(s) && id in s.pending && !Proceeds(s, id, t)
    ensures s.pending[id].slot.cap.provider in s.registry
    ensures var (s', r) := CloseStale(s, id, Revalidate(s, id, t));
            var (e, why) := Closing(s, id, t);
            && EndsWith(s, s', id, [Record(e, id)]) && r == Refusal(why) && s'.artifacts == s.artifacts
            && s'.tokens == s.tokens
  {
    hide Inv, Write, Check, Proceeds;
    EntryFacts(s, id);
    NeverGone(s, id, t);
    ProceedsIffLive(s, id, t);
    var v, p := Revalidate(s, id, t), s.pending[id];
    var s0 := if v.Stopped? then s.(flags := s.flags + {id}) else s;
    Commits(s0, [Record(Closing(s, id, t).0, id)]);
  }

  lemma SkippedOutcome(s: Kernel, id: InvId)
    requires Inv(s) && Willing(s) && id in s.pending
    ensures var (s', r), p := CloseStale(s, id, Stopped), s.pending[id];
            && EndsWith(s, s', id, [Record(Cancelled(p.run, p.slot), id)]) && r == Refusal(ByCancellation)
            && s'.artifacts == s.artifacts
  {
    hide Inv, Write;
    EntryFacts(s, id);
    Commits(s.(flags := s.flags + {id}), [Record(Cancelled(s.pending[id].run, s.pending[id].slot), id)]);
  }

  lemma FailOutcome(s: Kernel, id: InvId)
    requires Inv(s) && Willing(s) && id in s.pending
    ensures var (s', r), p := Fail(s, id), s.pending[id];
            && EndsWith(s, s', id, [Record(Failed(p.run, p.Key()), id)]) && r == InvocationFailed
            && s'.artifacts == s.artifacts
  {
    hide Inv, Write;
    EntryFacts(s, id);
    Commits(s, [Record(Failed(s.pending[id].run, s.pending[id].Key()), id)]);
  }

  /** One record per draft in order, then the completion. */
  predicate RecordsCompletion(before: seq<Record>, after: seq<Record>, id: InvId, p: Pending, drafts: seq<Draft>, first: ArtifactId) {
    && before <= after && |after| == |before| + |drafts| + 1
    && (forall i | 0 <= i < |drafts| ::
          after[|before| + i] == Record(Produced(p.run, first + i, drafts[i].kind), id))
    && after[|after| - 1] == Record(Completed(p.run, p.Key()), id)
  }

  /** One artifact per draft is added, with the work's own provenance. */
  ghost predicate AddsArtifacts(before: map<ArtifactId, Artifact>, after: map<ArtifactId, Artifact>, p: Pending,
                                drafts: seq<Draft>, first: ArtifactId) {
    && (forall a :: a in after <==> a in before || first <= a < first + |drafts|)
    && (forall a | a in before :: after[a] == before[a])
    && (forall i | 0 <= i < |drafts| ::
          after[first + i] == Artifact(first + i, drafts[i].kind, p.run, p.slot.cap, p.grant.id, p.slot.cap.provider))
  }

  ghost predicate CompletedWith(s: Kernel, s': Kernel, id: InvId, drafts: seq<Draft>, ids: seq<ArtifactId>)
    requires id in s.pending
  {
    && |ids| == |drafts| && (forall i | 0 <= i < |ids| :: ids[i] == s.nextId + i)
    && RecordsCompletion(s.ledger.records, s'.ledger.records, id, s.pending[id], drafts, s.nextId)
    && AddsArtifacts(s.artifacts, s'.artifacts, s.pending[id], drafts, s.nextId)
  }

  lemma NewIds(s: Kernel)
    requires Inv(s)
    ensures forall a | a in s.artifacts :: a < s.nextId
  {
  }

  lemma CommitOutcome(s: Kernel, id: InvId, rs: seq<Record>, produced: map<ArtifactId, Artifact>, ids: seq<ArtifactId>)
    requires Willing(s) && Quiet(s.ledger.runs, rs)
    ensures var (s', r) := CommitCompletion(s, id, rs, produced, ids);
            && r == Finished(ids) && s'.ledger.records == s.ledger.records + rs && s'.artifacts == s.artifacts + produced
            && s'.pending == s.pending - {id}
  {
    AppendQuiet(s.ledger, rs);
  }

  lemma StampsDrafts(s: Kernel, id: InvId, drafts: seq<Draft>)
    requires Inv(s) && id in s.pending
    ensures AddsArtifacts(s.artifacts, s.artifacts + StampedArtifacts(s, id, drafts), s.pending[id], drafts, s.nextId)
  {
    hide Inv;
    NewIds(s);
    var after := s.artifacts + StampedArtifacts(s, id, drafts);
    forall a: ArtifactId ensures a in after <==> a in s.artifacts || s.nextId <= a < s.nextId + |drafts| {
    }
  }

  lemma CompleteOutcome(s: Kernel, id: InvId, drafts: seq<Draft>)
    requires Inv(s) && Willing(s) && id in s.pending
    ensures var (s', r) := Complete(s, id, drafts);
            r.Finished? && CompletedWith(s, s', id, drafts, r.artifacts) && s'.pending == s.pending - {id}
  {
    hide Inv, StampedArtifacts, CommitCompletion, AddsArtifacts;
    EntryFacts(s, id);
    var p := s.pending[id];
    var rs := ProductionRecords(s, id, drafts) + [Record(Completed(p.run, p.Key()), id)];
    CommitOutcome(s, id, rs, StampedArtifacts(s, id, drafts), seq(|drafts|, i => s.nextId + i));
    StampsDrafts(s, id, drafts);
  }

  /**
    Finalizing against a store that commits. Work that may go on completes exactly if its
    handler returned a valid result whose drafts all have valid content and types the
    provider declared; a handler that was never entered leaves one cancellation, everything
    else one failure. Work that may not go on is closed by one record that says why.
   */
  lemma FinalizeOutcome(s: Kernel, id: InvId, t: Clock)
    requires Inv(s) && Willing(s) && id in s.tokens && s.tokens[id].Executed?
    requires id in s.pending && s.pending[id].authorized
    ensures var (s', r), p, x := Finalize(s, id, t), s.pending[id], s.tokens[id].execution;
            && (r.Finished? <==> Proceeds(s, id, t) && GoodResult(p, x))
            && (r.Finished? ==> x.Returned? && CompletedWith(s, s', id, x.drafts, r.artifacts) && s'.pending == s.pending - {id})
            && (!r.Finished? ==> s'.artifacts == s.artifacts)
            && (Proceeds(s, id, t) && x.Skipped? ==>
                  EndsWith(s, s', id, [Record(Cancelled(p.run, p.slot), id)]) && r == Refusal(ByCancellation))
            && (Proceeds(s, id, t) && !x.Skipped? && !GoodResult(p, x) ==>
                  EndsWith(s, s', id, [Record(Failed(p.run, p.Key()), id)]) && r == InvocationFailed)
            && (!Proceeds(s, id, t) ==>
                  && p.slot.cap.provider in s.registry
                  && EndsWith(s, s', id, [Record(Closing(s, id, t).0, id)]) && r == Refusal(Closing(s, id, t).1))
  {
    hide Inv, Revalidate, CloseStale, Complete, Fail, DraftsOk, Check, EndsWith, CompletedWith, MayProceed;
    var s0, x := s.(tokens := s.tokens - {id}), s.tokens[id].execution;
    SpendTokenInv(s, id);
    ProceedsIffLive(s0, id, t);
    SameWork(s, s0, id, t);
    if !Proceeds(s, id, t) {
      StaleOutcome(s0, id, t);
    } else if x.Skipped? {
      SkippedOutcome(s0, id);
    } else {
      JudgedByReservation(s0, id, t, if x.Returned? then x.drafts else []);
      if GoodResult(s.pending[id], x) {
        CompleteOutcome(s0, id, x.drafts);
      } else {
        FailOutcome(s0, id);
      }
    }
    SameStart(s, s0, Finalize(s, id, t).0, id);
  }

  lemma SameWork(s: Kernel, s0: Kernel, id: InvId, t: Clock)
    requires s0 == s.(tokens := s0.tokens) && id in s.pending
    ensures Proceeds(s, id, t) <==> Proceeds(s0, id, t)
    ensures s.pending[id].slot.cap.provider in s.registry ==> Closing(s, id, t) == Closing(s0, id, t)
  {
    hide Check;
  }

  lemma SameStart(s: Kernel, s0: Kernel, s': Kernel, id: InvId)
    requires s0 == s.(tokens := s0.tokens) && id in s.pending
    ensures forall rs :: EndsWith(s, s', id, rs) <==> EndsWith(s0, s', id, rs)
    ensures forall drafts, ids :: CompletedWith(s, s', id, drafts, ids) <==> CompletedWith(s0, s', id, drafts, ids)
  {
  }

  // ----- Authorizing -----

  /** What is recorded before the work is judged: the user's yes, where there was a prompt. */
  function Approval(p: Pending, id: InvId, decision: Option<bool>): seq<Record> {
    if decision == Some(true) then [Record(ApprovalGranted(p.run, p.Key()), id)] else []
  }

  /** What dispatching records: that work began, where the grant requires approval. */
  function Beginning(p: Pending, id: InvId): seq<Record> {
    if p.grant.condition == RequiresApproval then [Record(Invoked(p.run, p.Key()), id)] else []
  }

  /** The work is dispatched: its execution token runs to its deadline, and nothing else moves. */
  predicate DispatchedWith(s: Kernel, s': Kernel, id: InvId, rs: seq<Record>)
    requires id in s.pending
  {
    var p := s.pending[id];
    && s'.ledger == RunLedger(s.ledger.records + rs, s.ledger.runs)
    && s'.pending == s.pending[id := p.(authorized := true)]
    && id in s'.tokens && s'.tokens[id] == Authorized(p.deadline)
    && s'.registry == s.registry && s'.broker == s.broker && s'.handlers == s.handlers && s'.artifacts == s.artifacts
  }

  lemma DispatchOutcome(s: Kernel, id: InvId, t: Clock)
    requires Inv(s) && Willing(s) && id in s.pending && id !in s.tokens
    ensures var (s', r) := Dispatch(s, id, t);
            && (Proceeds(s, id, t) ==> r == Dispatched && DispatchedWith(s, s', id, Beginning(s.pending[id], id)))
            && (!Proceeds(s, id, t) ==>
                  && s.pending[id].slot.cap.provider in s.registry && id !in s'.tokens && id in s'.flags
                  && EndsWith(s, s', id, [Record(Closing(s, id, t).0, id)]) && r == Refusal(Closing(s, id, t).1))
  {
    hide Inv, Write, Revalidate, CloseStale, Check, Proceeds;
    EntryFacts(s, id);
    ProceedsIffLive(s, id, t);
    var p := s.pending[id];
    if Proceeds(s, id, t) {
      Commits(s, [Record(Invoked(p.run, p.Key()), id)]);
      assert s.ledger.records + [] == s.ledger.records;
    } else {
      StaleOutcome(s, id, t);
    }
  }

  /**
    Authorizing against a store that commits: unless the user said no, work that may go on is
    dispatched, with its approval and its beginning recorded where the grant requires one, and
    work that may not is closed by one record that says why.
   */
  lemma AuthorizeOutcome(s: Kernel, id: InvId, t: Clock)
    requires Inv(s) && Willing(s) && id in s.tokens && s.tokens[id].Answered? && s.tokens[id].decision != Some(false)
    requires id in s.pending && !s.pending[id].authorized
    ensures var (s', r), p, asked := Authorize(s, id, t), s.pending[id], Approval(s.pending[id], id, s.tokens[id].decision);
            && (r == Dispatched <==> Proceeds(s, id, t))
            && (r == Dispatched ==> DispatchedWith(s, s', id, asked + Beginning(p, id)))
            && (r != Dispatched ==>
                  && p.slot.cap.provider in s.registry && id !in s'.tokens && id in s'.flags
                  && EndsWith(s, s', id, asked + [Record(Closing(s, id, t).0, id)]) && r == Refusal(Closing(s, id, t).1))
  {
    hide Inv, Write, Dispatch, Check, Closing, Beginning, Proceeds;
    var s0, p := s.(tokens := s.tokens - {id}), s.pending[id];
    EntryFacts(s, id);
    SpendTokenInv(s, id);
    SameWork(s, s0, id, t);
    if s.tokens[id].decision.None? {
      DispatchOutcome(s0, id, t);
    } else {
      var e := ApprovalGranted(p.run, p.Key());
      Commits(s0, [Record(e, id)]);
      GrantedInv(s0, id);
      var s1 := Write(s0, [Record(e, id)]).0;
      DispatchOutcome(s1, id, t);
      SameButRecords(s0, s1, id, t);
    }
    MoreRecords(s.ledger.records, Approval(p, id, s.tokens[id].decision), Beginning(p, id));
    MoreRecords(s.ledger.records, Approval(p, id, s.tokens[id].decision), [Record(Closing(s, id, t).0, id)]);
  }

  lemma MoreRecords(a: seq<Record>, b: seq<Record>, c: seq<Record>)
    ensures a + b + c == a + (b + c) && [] + c == c
  {
  }

  lemma SameButRecords(s: Kernel, s1: Kernel, id: InvId, t: Clock)
    requires id in s.pending && s1.pending == s.pending && s1.registry == s.registry && s1.broker == s.broker
    requires s1.ledger.runs == s.ledger.runs && s1.flags == s.flags
    ensures Proceeds(s, id, t) <==> Proceeds(s1, id, t)
    ensures s.pending[id].slot.cap.provider in s.registry ==> Closing(s, id, t) == Closing(s1, id, t)
  {
    hide Check;
  }

  // ----- Executing and giving up -----

  /** The handler is entered exactly if the work is not cancelled and its deadline has not passed. */
  lemma ExecuteOutcome(s: Kernel, id: InvId, outcome: Execution, now: Time)
    requires Held(s) && id in s.tokens && s.tokens[id].Authorized? && id in s.pending
    ensures var s' := Execute(s, id, outcome, now);
            && id in s'.tokens
            && s'.tokens[id] == Executed(if id in s.flags || s.pending[id].deadline <= now then Skipped else outcome)
            && s'.pending == s.pending && s'.ledger == s.ledger
  {
  }

  /** Aborting records one cancellation, unless the kernel no longer holds the work. */
  lemma AbortOutcome(s: Kernel, id: InvId)
    requires Inv(s) && Willing(s) && id in s.tokens && (s.tokens[id].Prepared? || s.tokens[id].Authorized?)
    ensures var (s', r) := Abort(s, id);
            && id !in s'.tokens && id in s'.flags
            && (id in s.pending ==>
                  && var p := s.pending[id];
                  && EndsWith(s, s', id, [Record(Cancelled(p.run, p.slot), id)]) && r == Refusal(ByCancellation))
            && (id !in s.pending ==> r.Failure? && s'.ledger == s.ledger && s'.pending == s.pending)
  {
    hide Inv, Write;
    if id in s.pending {
      EntryFacts(s, id);
      Commits(s, [Record(Cancelled(s.pending[id].run, s.pending[id].slot), id)]);
    }
  }

  /**
    Cancelling a run reaches exactly its own pending work, and that may not proceed at any later
    point of the session.
   */
  lemma CancellationStops(s: Kernel, run: RunId, later: seq<Call>, id: InvId, t: Clock)
    requires Inv(s) && id in s.pending && forall c | c in later :: !c.DoRestart?
    ensures id in CancelRun(s, run).flags <==> id in s.flags || s.pending[id].run == run
    ensures s.pending[id].run == run ==> !MayProceed(Run(CancelRun(s, run), later), id, t)
  {
    hide Inv, Run;
    OutsideInv(s, 0, false, Skipped, 0, run);
    RunEvolves(CancelRun(s, run), later);
  }
}
