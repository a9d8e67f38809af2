/**
  Which callers can always restart. A restart pairs stored records up by key and
  checks every manifest again; `Careful` says, call by call and in terms of what the
  caller sees before the call, when neither check can be upset.
 */
module RestartDiscipline {
  import opened Basics
  import opened Domain
  import opened Ledger
  import opened Broker
  import opened ActionLog
  import opened ReplayAgreement
  import opened DoubleInvocation
  import opened KernelState
  import opened ActionPath
  import opened KernelInvariant
  import opened ActionInvariant
  import opened CompletionInvariant
  import opened History

  // ----- What stays true under careful calls -----

  /** A prompt was raised exactly for the invocations whose grant requires approval. */
  predicate Prompts(b: Book, pending: PendingTable) {
    forall id | id in pending :: id in b && (b[id].prompted <==> pending[id].grant.condition == RequiresApproval)
  }

  /** Memory and store can be paired up, now and however the open work finishes. */
  ghost predicate Replays(s: Kernel) {
    && Steady(s.ledger.records) && Replay(s.disk.records).Some?
    && Prompts(Track(s.ledger.records, true).value, s.pending)
  }

  function BookOf(s: Kernel): Book
    requires Track(s.ledger.records, false).Some?
  {
    Track(s.ledger.records, false).value
  }

  lemma {:induction false} PromptedForGood(records: seq<Record>, ext: seq<Record>, id: InvId)
    requires Track(records + ext, true).Some? && Track(records, true).Some? && id in Track(records, true).value
    ensures id in Track(records + ext, true).value
    ensures Track(records + ext, true).value[id].prompted == Track(records, true).value[id].prompted
    decreases |ext|
  {
    if ext == [] {
      assert records + ext == records;
    } else {
      var n := |ext| - 1;
      assert (records + ext)[..|records + ext| - 1] == records + ext[..n];
      PromptedForGood(records, ext[..n], id);
    }
  }

  lemma SteadyReplays(records: seq<Record>)
    requires Steady(records)
    ensures Replay(records).Some? && Track(records, true).Some?
  {
  }

  predicate FewerReservations(pending: PendingTable, pending': PendingTable) {
    forall id | id in pending' :: id in pending && SameReservation(pending[id], pending'[id])
  }

  lemma PromptsKept(s: Kernel, rs: seq<Record>, pending': PendingTable)
    requires Replays(s) && Steady(s.ledger.records + rs) && FewerReservations(s.pending, pending')
    ensures Prompts(Track(s.ledger.records + rs, true).value, pending') && Prompts(Track(s.ledger.records, true).value, pending')
  {
    hide SlotsSafe, Agree, Track, Replay;
    forall id | id in s.pending
      ensures id in Track(s.ledger.records + rs, true).value
      ensures Track(s.ledger.records + rs, true).value[id].prompted == Track(s.ledger.records, true).value[id].prompted
    {
      PromptedForGood(s.ledger.records, rs, id);
    }
  }

  lemma WriteSteady(s: Kernel, rs: seq<Record>)
    requires Steady(s.ledger.records) && Replay(s.disk.records).Some?
    requires AppendAll(s.ledger, rs).Some? ==> Steady(s.ledger.records + rs)
    ensures Steady(Write(s, rs).0.ledger.records) && Replay(Write(s, rs).0.disk.records).Some?
  {
    hide SlotsSafe, Agree, Track, Replay;
  }

  lemma WriteAppends(s: Kernel, rs: seq<Record>)
    requires Write(s, rs).1
    ensures AppendAll(s.ledger, rs).Some?
  {
  }

  /** Records that keep the ledger steady, and at most fewer reservations. */
  lemma QuietReplays(s: Kernel, rs: seq<Record>, s': Kernel)
    requires Replays(s) && (AppendAll(s.ledger, rs).Some? ==> Steady(s.ledger.records + rs))
    requires s'.ledger == Write(s, rs).0.ledger && s'.disk == Write(s, rs).0.disk
    requires FewerReservations(s.pending, s'.pending)
    ensures Replays(s')
  {
    hide Write, SlotsSafe, Agree, Track, Replay;
    WriteSteady(s, rs);
    if Write(s, rs).1 {
      WriteAppends(s, rs);
      PromptsKept(s, rs, s'.pending);
    }
  }

  /** Nothing recorded: only reservations may go. */
  lemma StillReplays(s: Kernel, s': Kernel)
    requires Replays(s) && s'.ledger == s.ledger && FewerReservations(s.pending, s'.pending)
    requires s'.disk.records == s.disk.records || s'.disk.records == s.ledger.records
    ensures Replays(s')
  {
    hide SlotsSafe, Agree, Track, Replay;
  }

  lemma BothBooks(s: Kernel)
    requires Replays(s)
    ensures Track(s.ledger.records, false) == Track(s.ledger.records, true)
  {
    hide SlotsSafe, Agree;
    StrictIsPermissive(s.ledger.records);
  }

  /** A record of pending work that its protocol allows. */
  lemma OwnRecord(s: Kernel, id: InvId, e: Event, s': Kernel)
    requires Inv(s) && Replays(s) && id in s.pending && !e.RunEnded? && !e.RunStarted?
    requires Track(s.ledger.records, false).Some? && TrackStep(BookOf(s), Record(e, id), true).Some?
    requires s'.ledger == Write(s, [Record(e, id)]).0.ledger && s'.disk == Write(s, [Record(e, id)]).0.disk
    requires FewerReservations(s.pending, s'.pending)
    ensures Replays(s')
  {
    hide Inv, Write, SlotsSafe, Agree, TrackStep, Replay, Track;
    EntryFacts(s, id);
    BothBooks(s);
    SteadyStep(s.ledger.records, Record(e, id));
    QuietReplays(s, [Record(e, id)], s');
  }

  // ----- The action path -----

  lemma StaleReplays(s: Kernel, id: InvId, v: Verdict)
    requires Inv(s) && Replays(s) && id in s.pending
    ensures Replays(CloseStale(s, id, v).0)
  {
    hide Inv, Write, Replays, EntryOk;
    var p, s' := s.pending[id], CloseStale(s, id, v).0;
    EntryFacts(s, id);
    if v.RunGone? {
      StillReplays(s, s');
    } else {
      var s0 := if v.Stopped? then s.(flags := s.flags + {id}) else s;
      FlagsInv(s, s0.flags);
      StillReplays(s, s0);
      OwnRecord(s0, id, if v.NotGranted? then Refused(p.run, p.slot, v.reason) else Cancelled(p.run, p.slot), s');
    }
  }

  lemma Undisturbed(s: Kernel, s': Kernel)
    requires Replays(s) && s'.ledger == s.ledger && s'.disk == s.disk && FewerReservations(s.pending, s'.pending)
    ensures Replays(s')
  {
    hide Steady, Replay, Track;
  }

  lemma DispatchReplays(s: Kernel, id: InvId, t: Clock)
    requires Inv(s) && Replays(s) && id in s.pending && !s.pending[id].authorized
    requires Track(s.ledger.records, false).Some? && id in BookOf(s)
    requires BookOf(s)[id].phase == Granted || !BookOf(s)[id].prompted
    ensures Replays(Dispatch(s, id, t).0)
  {
    hide Inv, Write, Revalidate, CloseStale, Steady, Replay;
    EntryFacts(s, id);
    BothBooks(s);
    var p, v, s' := s.pending[id], Revalidate(s, id, t), Dispatch(s, id, t).0;
    if !v.Live? {
      StaleReplays(s, id, v);
      Undisturbed(CloseStale(s, id, v).0, s');
    } else if p.grant.condition == RequiresApproval {
      assert BookOf(s)[id].prompted;
      OwnRecord(s, id, Invoked(p.run, p.Key()), s');
    } else {
      Undisturbed(s, s');
    }
  }

  lemma AuthorizeReplays(s: Kernel, id: InvId, t: Clock)
    requires Inv(s) && Replays(s) && id in s.tokens && s.tokens[id].Answered?
    ensures Replays(Authorize(s, id, t).0)
  {
    hide Inv, Write, Dispatch, Replays, EntryOk;
    var s0, s' := s.(tokens := s.tokens - {id}), Authorize(s, id, t).0;
    SpendTokenInv(s, id);
    Undisturbed(s, s0);
    if id !in s.pending || s.pending[id].authorized {
      Undisturbed(s, s');
    } else {
      EntryFacts(s, id);
      var p, decision := s.pending[id], s.tokens[id].decision;
      if decision.None? {
        DispatchReplays(s0, id, t);
      } else {
        var e := if decision.value then ApprovalGranted(p.run, p.Key()) else ApprovalDenied(p.run, p.Key());
        var (s1, ok) := Write(s0, [Record(e, id)]);
        OwnRecord(s0, id, e, s1);
        if ok && decision.value {
          GrantedInv(s0, id);
          DispatchReplays(s1, id, t);
        } else {
          Undisturbed(s1, s');
        }
      }
    }
  }

  lemma FailReplays(s: Kernel, id: InvId)
    requires Inv(s) && Replays(s) && id in s.pending && s.pending[id].authorized
    ensures Replays(Fail(s, id).0)
  {
    hide Inv, Write, Replays;
    EntryFacts(s, id);
    OwnRecord(s, id, Failed(s.pending[id].run, s.pending[id].Key()), Fail(s, id).0);
  }

  lemma AbortReplays(s: Kernel, id: InvId)
    requires Inv(s) && Replays(s) && id in s.tokens && (s.tokens[id].Prepared? || s.tokens[id].Authorized?)
    ensures Replays(Abort(s, id).0)
  {
    hide Inv, Write, Replays;
    if id in s.pending {
      EntryFacts(s, id);
      OwnRecord(s, id, Cancelled(s.pending[id].run, s.pending[id].slot), Abort(s, id).0);
    } else {
      Undisturbed(s, Abort(s, id).0);
    }
  }

  /** Records that finish known work: the strict and the permissive protocol agree on them. */
  predicate Finishing(b: Book, rs: seq<Record>) {
    forall r | r in rs ::
      r.event.RunEnded? || (r.inv in b && r.inv != 0 && !r.event.RunStarted? && !r.event.Invoked?)
  }

  lemma {:induction false} FinishingIsStrict(records: seq<Record>, rs: seq<Record>)
    requires Track(records, true).Some? && Track(records + rs, false).Some?
    requires forall r | r in rs :: !r.event.Invoked?
    ensures Track(records + rs, true).Some? && Track(records + rs, true) == Track(records + rs, false)
    decreases |rs|
  {
    if rs == [] {
      assert records + rs == records;
      StrictIsPermissive(records);
    } else {
      var n := |rs| - 1;
      assert (records + rs)[..|records + rs| - 1] == records + rs[..n];
      FinishingIsStrict(records, rs[..n]);
    }
  }

  lemma FinishingSteady(records: seq<Record>, rs: seq<Record>)
    requires Steady(records) && Track(records + rs, false).Some? && Finishing(Track(records, true).value, rs)
    ensures Steady(records + rs)
  {
    hide SlotsSafe, Agree, Track, Replay;
    FinishingIsStrict(records, rs);
    FinishingStaysInStep(records, rs);
  }

  /** A closing batch: cancellations of pending work, then run ends. */
  lemma ClosingSteady(s: Kernel, ids: set<InvId>, runs: seq<RunId>, how: RunEnd)
    requires Inv(s) && Replays(s) && !s.recovery && Covers(s.pending, ids, runs)
    requires Distinct(runs) && forall r | r in runs :: Active(s.ledger.runs, r)
    ensures Steady(s.ledger.records + (Close(s, ids) + Ends(runs, how)))
  {
    hide Inv, SlotsSafe, Agree, Track, Replay, Steady, Close, Ends;
    StillSteady(s);
    BothBooks(s);
    SteadyReplays(s.ledger.records);
    ClosingBatch(s, ids, runs, how);
    ClosingFinishes(s, ids, runs, how);
    FinishingSteady(s.ledger.records, Close(s, ids) + Ends(runs, how));
  }

  /** Closing records belong to known work, whatever the state of the ledger. */
  lemma ClosingFinishes(s: Kernel, ids: set<InvId>, runs: seq<RunId>, how: RunEnd)
    requires Inv(s) && Track(s.ledger.records, false).Some?
    ensures Finishing(BookOf(s), Close(s, ids) + Ends(runs, how))
  {
    hide Inv;
    var order := InOrder(ids * s.pending.Keys, s.nextInv);
    forall r | r in Close(s, ids) ensures r.event.Cancelled? && r.inv in BookOf(s) && r.inv != 0 {
      var i :| 0 <= i < |order| && Close(s, ids)[i] == r;
      assert order[i] in order;
      EntryFacts(s, order[i]);
    }
  }

  lemma ReapReplays(s: Kernel, now: Time)
    requires Inv(s) && Replays(s)
    ensures Replays(Reap(s, now).0)
  {
    hide Inv, Write, Replays, Close, Steady;
    var ids := PendingDue(s, now);
    if s.recovery || ids == {} {
      Undisturbed(s, Reap(s, now).0);
    } else {
      ClosingSteady(s, ids, [], RunCancelled);
      assert Close(s, ids) + Ends([], RunCancelled) == Close(s, ids);
      QuietReplays(s, Close(s, ids), Reap(s, now).0);
    }
  }

  lemma EndRunReplays(s: Kernel, run: RunId, how: RunEnd)
    requires Inv(s) && Replays(s)
    ensures Replays(EndRun(s, run, how).0)
  {
    hide Inv, Write, Replays, Close, Steady;
    var ids := PendingOfRun(s, run);
    if s.recovery || !Active(s.ledger.runs, run) {
      Undisturbed(s, EndRun(s, run, how).0);
    } else {
      ClosingSteady(s, ids, [run], how);
      QuietReplays(s, Close(s, ids) + Ends([run], how), EndRun(s, run, how).0);
    }
  }

  lemma StartRunReplays(s: Kernel, app: AppId, parent: Option<RunId>)
    requires Replays(s)
    ensures Replays(StartRun(s, app, parent).0)
  {
    hide Write, Steady, Replay, Prompts;
    var r := Record(RunStarted(s.nextId, app, parent), 0);
    SteadyStep(s.ledger.records, r);
    QuietReplays(s.(nextId := s.nextId + 1), [r], Write(s.(nextId := s.nextId + 1), [r]).0);
    Undisturbed(s, s);
  }

  lemma CompletedSteady(s: Kernel, id: InvId, drafts: seq<Draft>)
    requires Inv(s) && Replays(s) && id in s.pending && s.pending[id].authorized
    ensures var rs := ProductionRecords(s, id, drafts) + [Record(Completed(s.pending[id].run, s.pending[id].Key()), id)];
            Steady(s.ledger.records + rs)
  {
    hide Inv, Steady, Replay, Track, ProductionRecords;
    var rs := ProductionRecords(s, id, drafts) + [Record(Completed(s.pending[id].run, s.pending[id].Key()), id)];
    EntryFacts(s, id);
    BothBooks(s);
    CompletionBlock(s, id, drafts, rs);
    CompletedBook(s, id, drafts, rs);
    FinishingSteady(s.ledger.records, rs);
  }

  /** Completing writes its records as `Write` would, together with the artifacts. */
  lemma CompleteReplays(s: Kernel, id: InvId, drafts: seq<Draft>)
    requires Inv(s) && Replays(s) && id in s.pending && s.pending[id].authorized
    ensures Replays(Complete(s, id, drafts).0)
  {
    hide Inv, Steady, Replay, Track, Prompts, Complete;
    var rs := ProductionRecords(s, id, drafts) + [Record(Completed(s.pending[id].run, s.pending[id].Key()), id)];
    CompletedSteady(s, id, drafts);
    SteadyReplays(s.ledger.records + rs);
    PromptsKept(s, rs, s.pending - {id});
    CompleteRecords(s, id, drafts);
  }

  lemma CompleteRecords(s: Kernel, id: InvId, drafts: seq<Draft>)
    requires id in s.pending
    ensures var s' := Complete(s, id, drafts).0;
            var rs := ProductionRecords(s, id, drafts) + [Record(Completed(s.pending[id].run, s.pending[id].Key()), id)];
            && s'.pending == s.pending - {id}
            && (s'.ledger.records == s.ledger.records || s'.ledger.records == s.ledger.records + rs)
            && (s'.disk.records == s.disk.records || s'.disk.records == s.ledger.records + rs)
  {
    hide StampedArtifacts, ProductionRecords, CommitCompletion;
  }

  lemma FinalizeReplays(s: Kernel, id: InvId, t: Clock)
    requires Inv(s) && Replays(s) && id in s.tokens && s.tokens[id].Executed?
    ensures Replays(Finalize(s, id, t).0)
  {
    hide Inv, Replays, CloseStale, Complete, Fail, Revalidate, DraftsOk;
    var s0 := s.(tokens := s.tokens - {id});
    SpendTokenInv(s, id);
    Undisturbed(s, s0);
    if id in s.pending && s.pending[id].authorized {
      var v, x := Revalidate(s0, id, t), s.tokens[id].execution;
      StaleReplays(s0, id, v);
      StaleReplays(s0, id, Stopped);
      if x.Returned? {
        CompleteReplays(s0, id, x.drafts);
      }
      FailReplays(s0, id);
    }
  }

  // ----- Careful preparation -----

  predicate SameSlot(p: Pending, a: Attempt) {
    p.run == a.run && p.slot == a.slot
  }

  /** The work has begun: it was authorized, or its grant never asked. */
  predicate Begun(p: Pending) {
    p.authorized || p.grant.condition != RequiresApproval
  }

  /** No pending work of this run uses the capability and data scope. */
  predicate Unused(pending: PendingTable, a: Attempt) {
    forall id | id in pending :: !SameSlot(pending[id], a)
  }

  /** Whatever pending work of this run uses them has begun, under this very grant. */
  predicate Shared(pending: PendingTable, a: Attempt, grant: GrantId) {
    forall id | id in pending && SameSlot(pending[id], a) :: Begun(pending[id]) && pending[id].grant.id == grant
  }

  /** What a careful caller checks, with the kernel reaped as preparing will find it. */
  predicate CarefulAttempt(s: Kernel, a: Attempt, direct: bool, t: Clock) {
    Inadmissible(s, a).None? ==>
      var check := Check(s.broker, t.wall, s.ledger.runs[a.run].app, a.slot);
      if check.Denied? then Unused(s.pending, a)
      else if check.grant.condition == RequiresApproval then
        Unused(s.pending, a) && !ClickIsConsent(direct, s.registry[a.slot.cap.provider].caps[a.slot.cap.name])
      else Shared(s.pending, a, check.grant.id)
  }

  /** Open work in the book and pending work in the table are the same, slot by slot. */
  lemma SlotFreeIff(s: Kernel, a: Attempt)
    requires Inv(s) && Replays(s) && !s.recovery && Track(s.ledger.records, false).Some?
    ensures SlotFree(BookOf(s), a.run, a.slot) <==> Unused(s.pending, a)
  {
    hide Inv, Replays;
    if SlotFree(BookOf(s), a.run, a.slot) {
      forall id | id in s.pending ensures !SameSlot(s.pending[id], a) {
        EntryFacts(s, id);
      }
    } else {
      var i :| i in BookOf(s) && IsOpen(BookOf(s), i) && BookOf(s)[i].run == a.run && BookOf(s)[i].key.slot == a.slot;
      OpenFacts(s, i);
      EntryFacts(s, i);
    }
  }

  lemma OpenFacts(s: Kernel, id: InvId)
    requires Inv(s) && !s.recovery && Track(s.ledger.records, false).Some? && IsOpen(BookOf(s), id)
    ensures id in s.pending
  {
    hide StateOk, HandlersOk, PendingOk, DiskOk;
  }

  /** Beginning unprompted work is safe exactly if what shares its slot has begun under the same grant. */
  lemma SafeToBeginIff(s: Kernel, a: Attempt, grant: GrantId)
    requires Inv(s) && Replays(s) && !s.recovery && Track(s.ledger.records, false).Some?
    ensures SafeToOpen(BookOf(s), Invoked(a.run, Key(a.slot, grant))) <==> Shared(s.pending, a, grant)
  {
    hide Inv, Steady, Replay;
    BothBooks(s);
    var b, e := BookOf(s), Invoked(a.run, Key(a.slot, grant));
    if SafeToOpen(b, e) {
      forall id | id in s.pending && SameSlot(s.pending[id], a) ensures Begun(s.pending[id]) && s.pending[id].grant.id == grant {
        EntryFacts(s, id);
        assert IsOpen(b, id);
      }
    } else {
      var i :| i in b && IsOpen(b, i) && b[i].run == a.run && b[i].key.slot == a.slot
        && !(b[i].phase == Executing && b[i].key == e.key);
      OpenFacts(s, i);
      EntryFacts(s, i);
    }
  }

  /** The record that preparing writes, given the grant. */
  function OpeningEvent(s: Kernel, a: Attempt, direct: bool, grant: Grant): Event
    requires Declares(s.registry, a.slot.cap)
  {
    if NeedsPrompt(s, a, direct, grant) then ApprovalRequested(a.run, Key(a.slot, grant.id))
    else Invoked(a.run, Key(a.slot, grant.id))
  }

  predicate ConsentInstead(s: Kernel, a: Attempt, direct: bool, grant: Grant)
    requires Declares(s.registry, a.slot.cap)
  {
    grant.condition == RequiresApproval && !NeedsPrompt(s, a, direct, grant)
  }

  lemma OpeningIff(s: Kernel, a: Attempt, direct: bool, grant: Grant)
    requires Inv(s) && Replays(s) && !s.recovery && Track(s.ledger.records, false).Some?
    requires Declares(s.registry, a.slot.cap) && !ConsentInstead(s, a, direct, grant)
    ensures SafeToOpen(BookOf(s), OpeningEvent(s, a, direct, grant)) <==>
            if grant.condition == RequiresApproval then Unused(s.pending, a) else Shared(s.pending, a, grant.id)
  {
    hide Inv, Replays, Unused, Shared;
    SlotFreeIff(s, a);
    SafeToBeginIff(s, a, grant.id);
  }

  lemma NextIsNew(s: Kernel)
    requires Inv(s)
    ensures Track(s.ledger.records, false).Some? && s.nextInv !in BookOf(s) && 1 <= s.nextInv && 0 !in BookOf(s)
  {
    hide StateOk, HandlersOk, PendingOk, DiskOk;
  }

  lemma OpenReplays(s: Kernel, a: Attempt, direct: bool, app: AppId, grant: Grant, t: Clock)
    requires Inv(s) && Replays(s) && !s.recovery && Declares(s.registry, a.slot.cap)
    requires !ConsentInstead(s, a, direct, grant)
    requires if grant.condition == RequiresApproval then Unused(s.pending, a) else Shared(s.pending, a, grant.id)
    ensures Replays(Open(s, a, direct, app, grant, t).0)
  {
    hide Inv, Write, Steady, Replay, Unused, Shared, Track;
    var r, s' := Record(OpeningEvent(s, a, direct, grant), s.nextInv), Open(s, a, direct, app, grant, t).0;
    NextIsNew(s);
    BothBooks(s);
    OpeningIff(s, a, direct, grant);
    SteadyStep(s.ledger.records, r);
    WriteSteady(s, [r]);
    PromptsKept(s, [r], s.pending);
  }

  lemma PrepareReplays(s: Kernel, a: Attempt, direct: bool, t: Clock)
    requires Inv(s) && Replays(s) && CarefulAttempt(Reap(s, t.now).0, a, direct, t)
    ensures Replays(Prepare(s, a, direct, t).0)
  {
    hide Inv, Write, Reap, Open, Replays, Check, Unused, Shared;
    ReapReplays(s, t.now);
    ReapInv(s, t.now);
    var (s1, ok) := Reap(s, t.now);
    if s1.recovery {
      FrozenRest(s, a, direct, t);
    } else if ok && Inadmissible(s1, a).None? {
      var app := s1.ledger.runs[a.run].app;
      var check := Check(s1.broker, t.wall, app, a.slot);
      if check.Denied? {
        LoneReplays(s1, a, check.reason);
      } else {
        OpenReplays(s1, a, direct, app, check.grant, t);
      }
    }
  }

  lemma LoneReplays(s: Kernel, a: Attempt, reason: DenialReason)
    requires Inv(s) && Replays(s) && !s.recovery && Unused(s.pending, a)
    ensures Replays(Write(s, [Record(Refused(a.run, a.slot, reason), 0)]).0)
  {
    hide Inv, Write, Steady, Replay, Unused, Track;
    var r := Record(Refused(a.run, a.slot, reason), 0);
    NextIsNew(s);
    BothBooks(s);
    SlotFreeIff(s, a);
    SteadyStep(s.ledger.records, r);
    QuietReplays(s, [r], Write(s, [r]).0);
  }

  lemma FrozenRest(s: Kernel, a: Attempt, direct: bool, t: Clock)
    requires Reap(s, t.now).0.recovery
    ensures Prepare(s, a, direct, t).0 == Reap(s, t.now).0
  {
    hide Reap, Check, Write;
  }

  lemma StillSteady(s: Kernel)
    requires Replays(s)
    ensures Steady(s.ledger.records)
  {
  }
}
