/**
  A prompt, or work that needs none, opened while another prompt of the same run,
  capability and data scope waits: there is always a way on, by calls that are careful
  themselves, that leaves a store no restart accepts.
 */
module TwinPrompts {
  import opened Basics
  import opened Domain
  import opened Ledger
  import opened Broker
  import opened ActionLog
  import opened ReplayAgreement
  import opened KernelState
  import opened ActionPath
  import opened KernelInvariant
  import opened ActionInvariant
  import opened Recovery
  import opened Runs
  import opened HeldWork
  import opened Reservations
  import opened RestartDiscipline
  import opened CarefulRuns
  import opened RestartConditions

  // ----- On the ledger -----

  lemma ReplayNext(records: seq<Record>, r: Record)
    ensures Replay(records + [r]) ==
            if Replay(records).None? then None else ReplayStep(Replay(records).value, r.event)
  {
    assert (records + [r])[..|records|] == records;
  }

  /** The records of opening work and beginning it, with or without a prompt. */
  function Beginning(run: RunId, key: Key, id: InvId, prompted: bool): seq<Record> {
    if prompted
    then [Record(ApprovalRequested(run, key), id)] + [Record(ApprovalGranted(run, key), id)] + [Record(Invoked(run, key), id)]
    else [Record(Invoked(run, key), id)]
  }

  lemma BeginningReplays(records: seq<Record>, run: RunId, key: Key, id: InvId, prompted: bool)
    requires Replay(records).Some?
    ensures var now := records + Beginning(run, key, id, prompted);
            Replay(now).Some? ==> At(Replay(now).value, run).executing == At(Replay(records).value, run).executing + [key]
  {
    var q, g, i := Record(ApprovalRequested(run, key), id), Record(ApprovalGranted(run, key), id), Record(Invoked(run, key), id);
    if prompted {
      ReplayNext(records, q);
      ReplayNext(records + [q], g);
      ReplayNext(records + [q] + [g], i);
      assert records + Beginning(run, key, id, prompted) == records + [q] + [g] + [i];
    } else {
      ReplayNext(records, i);
    }
  }

  /** Cancelling the waiting work closes what was begun beside it, and its completion finds nothing. */
  lemma MisdirectedCancellation(records: seq<Record>, x: InvId, key: Key, id: InvId, prompted: bool)
    requires Steady(records) && IsOpen(Track(records, true).value, x) && Track(records, true).value[x].phase != Executing
    requires Track(records, true).value[x].key.slot == key.slot
    ensures var run := Track(records, true).value[x].run;
            Replay(records + Beginning(run, key, id, prompted) + [Record(Cancelled(run, key.slot), x)]
                   + [Record(Completed(run, key), id)]).None?
  {
    hide Replay, Track, Beginning, SlotsSafe, Without, FindSlot;
    SteadyAgrees(records);
    var b, m := Track(records, true).value, Replay(records).value;
    var run := b[x].run;
    var begun := records + Beginning(run, key, id, prompted);
    var c, f := Record(Cancelled(run, key.slot), x), Record(Completed(run, key), id);
    NoExecutingTwin(m, b, x);
    BeginningReplays(records, run, key, id, prompted);
    LastOfSlot(At(m, run).executing, key);
    ReplayNext(begun, c);
    ReplayNext(begun + [c], f);
  }

  // ----- By kernel calls -----

  /** Where a session stands that only touches its tables and its ledger. */
  ghost predicate Now(s: Kernel, base: Kernel, records: seq<Record>, pending: PendingTable, flags: set<InvId>) {
    && Willing(s) && s.registry == base.registry && s.broker == base.broker && s.handlers == base.handlers
    && s.ledger.runs == base.ledger.runs && s.ledger.records == records && s.pending == pending && s.flags == flags
  }

  lemma WritesOne(s: Kernel, base: Kernel, records: seq<Record>, pending: PendingTable, flags: set<InvId>, r: Record)
    requires Now(s, base, records, pending, flags)
    requires !r.event.RunStarted? && !r.event.RunEnded? && Active(s.ledger.runs, r.event.run)
    ensures Write(s, [r]).1 && Now(Write(s, [r]).0, base, records + [r], pending, flags)
    ensures Write(s, [r]).0.disk.records == records + [r]
  {
    AppendQuiet(s.ledger, [r]);
    WillingWrite(s, [r]);
  }

  /** The new work, as its preparation left it, may proceed at the same clock reading. */
  ghost predicate Usable(base: Kernel, p: Pending, t: Clock) {
    && Active(base.ledger.runs, p.run) && p.app == base.ledger.runs[p.run].app && p.app in base.registry
    && p.slot.cap.provider in base.registry && p.hash == base.registry[p.slot.cap.provider]
    && Bound(base.handlers, p.slot.cap) && t.now < p.deadline
    && var check := Check(base.broker, t.wall, p.app, p.slot); !check.Denied? && check.grant.id == p.grant.id
  }

  lemma MayProceed(s: Kernel, base: Kernel, records: seq<Record>, pending: PendingTable, flags: set<InvId>, id: InvId, t: Clock)
    requires Now(s, base, records, pending, flags) && id in pending && Usable(base, pending[id], t) && id !in flags
    ensures Revalidate(s, id, t) == Live
  {
    hide Check;
  }

  lemma DispatchesNow(s: Kernel, base: Kernel, records: seq<Record>, pending: PendingTable, flags: set<InvId>, id: InvId, t: Clock)
    requires Now(s, base, records, pending, flags) && id in pending && Usable(base, pending[id], t) && id !in flags
    ensures var p, s' := pending[id], Dispatch(s, id, t).0;
            && Now(s', base, if p.grant.condition == RequiresApproval then records + [Record(Invoked(p.run, p.Key()), id)] else records,
                   pending[id := p.(authorized := true)], flags)
            && s'.tokens == s.tokens[id := Authorized(p.deadline)] && s'.nextInv == s.nextInv
  {
    hide Write, Revalidate, Check;
    MayProceed(s, base, records, pending, flags, id, t);
    WritesOne(s, base, records, pending, flags, Record(Invoked(pending[id].run, pending[id].Key()), id));
  }

  /** Approved if it was prompted, and dispatched. */
  lemma AuthorizesNow(s: Kernel, base: Kernel, records: seq<Record>, pending: PendingTable, flags: set<InvId>, id: InvId, t: Clock)
    requires Now(s, base, records, pending, flags) && id in pending && Usable(base, pending[id], t) && id !in flags
    requires !pending[id].authorized && id in s.tokens
    requires s.tokens[id] == Answered(if pending[id].grant.condition == RequiresApproval then Some(true) else None)
    ensures var p, s' := pending[id], Authorize(s, id, t).0;
            && Now(s', base,
                   if p.grant.condition == RequiresApproval
                   then records + [Record(ApprovalGranted(p.run, p.Key()), id)] + [Record(Invoked(p.run, p.Key()), id)]
                   else records,
                   pending[id := p.(authorized := true)], flags)
            && s'.tokens == s.tokens[id := Authorized(p.deadline)] && s'.nextInv == s.nextInv
  {
    hide Write, Dispatch, Check;
    var p, s0 := pending[id], s.(tokens := s.tokens - {id});
    assert s0.tokens[id := Authorized(p.deadline)] == s.tokens[id := Authorized(p.deadline)];
    if p.grant.condition == RequiresApproval {
      var g := Record(ApprovalGranted(p.run, p.Key()), id);
      WritesOne(s0, base, records, pending, flags, g);
      DispatchesNow(Write(s0, [g]).0, base, records + [g], pending, flags, id, t);
    } else {
      DispatchesNow(s0, base, records, pending, flags, id, t);
    }
  }

  /** Dropping a token and preparing something invalid cancels exactly that work. */
  lemma ReapsDropped(s: Kernel, base: Kernel, records: seq<Record>, pending: PendingTable, flags: set<InvId>, x: InvId,
                     bad: Attempt, t: Clock)
    requires Inv(s) && Now(s, base, records, pending, flags) && x in pending && !bad.inputOk
    requires PendingDue(s, t.now) == {x}
    ensures var s' := Prepare(s, bad, false, t).0;
            && Now(s', base, records + [Record(Cancelled(pending[x].run, pending[x].slot), x)], pending - {x}, flags)
            && s'.tokens == s.tokens && s'.nextInv == s.nextInv
  {
    hide Inv, Write, Check, Close, PendingDue;
    EntryFacts(s, x);
    OnlyOne(s, x);
    WritesOne(s, base, records, pending, flags, Record(Cancelled(pending[x].run, pending[x].slot), x));
  }

  lemma OnlyOne(s: Kernel, x: InvId)
    requires x in s.pending && x < s.nextInv
    ensures Close(s, {x}) == [Record(Cancelled(s.pending[x].run, s.pending[x].slot), x)]
  {
    var order := InOrder({x} * s.pending.Keys, s.nextInv);
    DistinctSize(order, {x});
    assert order[0] in order;
    assert order == [x];
  }

  /** The work completes without artifacts, and the store holds its completion. */
  lemma FinishesNow(s: Kernel, base: Kernel, records: seq<Record>, pending: PendingTable, flags: set<InvId>, id: InvId, t: Clock)
    requires Now(s, base, records, pending, flags) && id in pending && Usable(base, pending[id], t) && id !in flags
    requires pending[id].authorized && id in s.tokens && s.tokens[id] == Executed(Returned(true, []))
    ensures Finalize(s, id, t).0.disk.records == records + [Record(Completed(pending[id].run, pending[id].Key()), id)]
  {
    hide Check, Revalidate, Complete, CloseStale, Fail;
    var s0 := s.(tokens := s.tokens - {id});
    MayProceed(s0, base, records, pending, flags, id, t);
    CompletesNow(s0, id);
  }

  lemma CompletesNow(s: Kernel, id: InvId)
    requires Willing(s) && id in s.pending && Active(s.ledger.runs, s.pending[id].run)
    ensures Complete(s, id, []).0.disk.records == s.ledger.records + [Record(Completed(s.pending[id].run, s.pending[id].Key()), id)]
  {
    var r := Record(Completed(s.pending[id].run, s.pending[id].Key()), id);
    assert ProductionRecords(s, id, []) + [r] == [r];
    AppendQuiet(s.ledger, [r]);
  }

  lemma NothingDue(s: Kernel, now: Time)
    requires Inv(s) && Willing(s)
    ensures var s1 := Reap(s, now).0;
            PendingDue(s1, now) == {} && s1.flags == s.flags && s1.nextInv == s.nextInv && Willing(s1)
  {
    hide Inv, Write, Close;
    var ids := PendingDue(s, now);
    CloseRecords(s, ids);
    AppendQuiet(s.ledger, Close(s, ids));
    WillingWrite(s, Close(s, ids));
  }

  /** The work that preparing reserves. */
  function Reserved(s: Kernel, a: Attempt, grant: Grant, t: Clock): Pending
    requires a.run in s.ledger.runs && a.slot.cap.provider in s.registry
  {
    Pending(a.run, s.ledger.runs[a.run].app, a.slot, grant, s.registry[a.slot.cap.provider], t.now + a.timeout, false)
  }

  /** What a preparation that is answered with work leaves, in terms of the kernel as reaped. */
  lemma PreparedNow(s: Kernel, a: Attempt, t: Clock)
    requires Inv(s) && Willing(s) && Prepare(s, a, false, t).1.WorkPrepared?
    ensures var s1, s' := Reap(s, t.now).0, Prepare(s, a, false, t).0;
            && a.run in s1.ledger.runs && a.slot.cap.provider in s1.registry
            && var check := Check(s1.broker, t.wall, s1.ledger.runs[a.run].app, a.slot);
               && !check.Denied? && check.grant in s1.broker.grants
               && var p, y := Reserved(s1, a, check.grant, t), s1.nextInv;
                  var prompted := check.grant.condition == RequiresApproval;
                  && (0 < a.timeout ==> Usable(s1, p, t)) && s'.nextInv == y + 1
                  && Now(s', s1, s1.ledger.records + [Beginning(a.run, p.Key(), y, prompted)[0]], s1.pending[y := p], s1.flags)
                  && s'.tokens == s1.tokens[y := Prepared(prompted)]
  {
    hide Inv, Write, Check, Reap, Inadmissible;
    NothingDue(s, t.now);
    Answers(s, a, false, t);
    var s1 := Reap(s, t.now).0;
    Admitted(s1, a);
    var check := Check(s1.broker, t.wall, s1.ledger.runs[a.run].app, a.slot);
    if !check.Denied? {
      var e := if check.grant.condition == RequiresApproval then ApprovalRequested(a.run, Key(a.slot, check.grant.id))
               else Invoked(a.run, Key(a.slot, check.grant.id));
      WritesOne(s1, s1, s1.ledger.records, s1.pending, s1.flags, Record(e, s1.nextInv));
    }
  }

  lemma Admitted(s: Kernel, a: Attempt)
    requires Inadmissible(s, a).None?
    ensures Active(s.ledger.runs, a.run) && s.ledger.runs[a.run].app in s.registry && Declares(s.registry, a.slot.cap)
  {
  }

  /** The waiting work, in the ledger. */
  lemma WaitsInBook(s: Kernel, x: InvId)
    requires Inv(s) && Replays(s) && x in s.pending && !Begun(s.pending[x])
    ensures Track(s.ledger.records, true).Some?
    ensures var b := Track(s.ledger.records, true).value;
            IsOpen(b, x) && b[x].phase != Executing && b[x].run == s.pending[x].run && b[x].key.slot == s.pending[x].slot
  {
    hide Inv, Steady, Track, Replay;
    EntryFacts(s, x);
    BothBooks(s);
    SteadyReplays(s.ledger.records);
  }

  /** One more call. */
  lemma Extend(s: Kernel, calls: seq<Call>, c: Call, now: Kernel, next: Kernel) returns (more: seq<Call>)
    requires CarefulRun(s, calls) && Run(s, calls) == now && Careful(now, c) && Step(now, c) == next
    ensures CarefulRun(s, more) && Run(s, more) == next
  {
    hide Step, Careful;
    more := calls + [c];
    assert more[..|calls|] == calls;
  }

  lemma RunsNothing(s: Kernel)
    ensures CarefulRun(s, []) && Run(s, []) == s
  {
  }

  lemma BadIsCareful(s: Kernel, a: Attempt, t: Clock)
    requires !a.inputOk
    ensures Careful(s, DoPrepare(a, t))
  {
    hide Reap, Check, Unused, Shared;
  }

  lemma StillUsable(base: Kernel, p: Pending, t: Clock)
    requires Usable(base, p, t)
    ensures Usable(base, p.(authorized := true), t) && t.now < p.deadline
  {
    hide Check;
  }

  lemma OnlyDropped(s: Kernel, base: Kernel, x: InvId, y: InvId, p: Pending, now: Time)
    requires s.pending == base.pending[y := p] && s.flags == base.flags + {x} && now < p.deadline
    requires x in base.pending && x != y && y !in base.flags && PendingDue(base, now) == {}
    ensures PendingDue(s, now) == {x}
  {
    assert forall id | id in base.pending :: id !in PendingDue(base, now);
  }

  lemma TokenSteps(s: Kernel, id: InvId, t: Clock, outcome: Execution)
    requires id in s.tokens
    ensures s.tokens[id].Prepared? ==> Step(s, DoAwaitApproval(id, true)) == AwaitApproval(s, id, true)
    ensures s.tokens[id].Answered? ==> Step(s, DoAuthorize(id, t)) == Authorize(s, id, t).0
    ensures s.tokens[id].Authorized? ==> Step(s, DoExecute(id, outcome, t)) == Execute(s, id, outcome, t.now)
    ensures s.tokens[id].Executed? ==> Step(s, DoFinalize(id, t)) == Finalize(s, id, t).0
    ensures Step(s, DoDropToken(id)) == DropToken(s, id)
  {
    hide AwaitApproval, Authorize, Execute, Finalize, DropToken;
  }

  lemma PrepareStep(s: Kernel, a: Attempt, t: Clock)
    ensures Step(s, DoPrepare(a, t)) == Prepare(s, a, false, t).0
  {
    hide Prepare;
  }

  lemma AlwaysCareful(s: Kernel, c: Call)
    requires c.DoAwaitApproval? || c.DoAuthorize? || c.DoExecute? || c.DoFinalize? || c.DoDropToken?
    ensures Careful(s, c)
  {
  }

  /** Approve what was opened, and authorize it. */
  lemma BeginsBeside(s: Kernel, base: Kernel, p: Pending, y: InvId, prompted: bool, t: Clock)
    returns (calls: seq<Call>)
    requires Usable(base, p, t) && !p.authorized && prompted == (p.grant.condition == RequiresApproval) && y !in base.flags
    requires Now(s, base, base.ledger.records + [Beginning(p.run, p.Key(), y, prompted)[0]], base.pending[y := p], base.flags)
    requires s.tokens == base.tokens[y := Prepared(prompted)]
    ensures CarefulRun(s, calls)
    ensures var s' := Run(s, calls);
            && Now(s', base, base.ledger.records + Beginning(p.run, p.Key(), y, prompted),
                   base.pending[y := p.(authorized := true)], base.flags)
            && s'.tokens == base.tokens[y := Authorized(p.deadline)] && s'.nextInv == s.nextInv
  {
    hide Usable, Authorize, CarefulRun, Run, Step, Careful;
    var s1 := AwaitApproval(s, y, true);
    RunsNothing(s);
    TokenSteps(s, y, t, Skipped);
    AlwaysCareful(s, DoAwaitApproval(y, true));
    calls := Extend(s, [], DoAwaitApproval(y, true), s, s1);
    AuthorizesNow(s1, base, s.ledger.records, s.pending, s.flags, y, t);
    var s2 := Authorize(s1, y, t).0;
    assert s.pending[y := p.(authorized := true)] == base.pending[y := p.(authorized := true)];
    assert s1.tokens[y := Authorized(p.deadline)] == base.tokens[y := Authorized(p.deadline)];
    assert s2.ledger.records == base.ledger.records + Beginning(p.run, p.Key(), y, prompted);
    TokenSteps(s1, y, t, Skipped);
    AlwaysCareful(s1, DoAuthorize(y, t));
    calls := Extend(s, calls, DoAuthorize(y, t), s1, s2);
  }

  /** Give the other work up, have it reaped, and let the begun work complete. */
  lemma CompletesBeside(s: Kernel, base: Kernel, records: seq<Record>, a: Attempt, p: Pending, x: InvId, y: InvId, t: Clock)
    returns (calls: seq<Call>)
    requires Inv(s) && Usable(base, p, t) && p.authorized && Now(s, base, records, base.pending[y := p], base.flags)
    requires s.tokens == base.tokens[y := Authorized(p.deadline)]
    requires x in base.pending && x in base.tokens && x != y && y !in base.flags && PendingDue(base, t.now) == {}
    ensures CarefulRun(s, calls)
    ensures Run(s, calls).disk.records ==
            records + [Record(Cancelled(base.pending[x].run, base.pending[x].slot), x)] + [Record(Completed(p.run, p.Key()), y)]
  {
    hide Inv, Usable, Prepare, Finalize, CarefulRun, Run, Step, Careful, PendingDue;
    var bad, success := a.(inputOk := false), Returned(true, []);
    var flags, pending := base.flags + {x}, base.pending[y := p];
    RunsNothing(s);
    StillUsable(base, p, t);
    var s1 := DropToken(s, x);
    TokenSteps(s, x, t, success);
    AlwaysCareful(s, DoDropToken(x));
    calls := Extend(s, [], DoDropToken(x), s, s1);
    RunInv(s, calls);
    OnlyDropped(s1, base, x, y, p, t.now);
    ReapsDropped(s1, base, records, pending, flags, x, bad, t);
    var s2 := Prepare(s1, bad, false, t).0;
    BadIsCareful(s1, bad, t);
    PrepareStep(s1, bad, t);
    calls := Extend(s, calls, DoPrepare(bad, t), s1, s2);
    var s3 := Execute(s2, y, success, t.now);
    TokenSteps(s2, y, t, success);
    AlwaysCareful(s2, DoExecute(y, success, t));
    calls := Extend(s, calls, DoExecute(y, success, t), s2, s3);
    FinishesNow(s3, base, s2.ledger.records, pending - {x}, flags, y, t);
    TokenSteps(s3, y, t, success);
    AlwaysCareful(s3, DoFinalize(y, t));
    calls := Extend(s, calls, DoFinalize(y, t), s3, Finalize(s3, y, t).0);
  }

  lemma {:induction false} InARow(s: Kernel, first: seq<Call>, second: seq<Call>)
    requires CarefulRun(s, first) && CarefulRun(Run(s, first), second)
    ensures CarefulRun(s, first + second) && Run(s, first + second) == Run(Run(s, first), second)
    decreases |second|
  {
    hide Step, Careful;
    if second == [] {
      assert first + second == first;
    } else {
      var n := |second| - 1;
      assert (first + second)[..|first| + n] == first + second[..n];
      InARow(s, first, second[..n]);
    }
  }

  /**
    Work prepared while other work of its run, capability and data scope still waits for
    approval: some careful calls later, the store cannot be restarted from.
   */
  lemma WaitingTwinBreaks(s: Kernel, a: Attempt, t: Clock, x: InvId) returns (calls: seq<Call>)
    requires Inv(s) && Held(s) && Restartable(s) && Willing(s)
    requires Prepare(s, a, false, t).1.WorkPrepared? && 0 < a.timeout
    requires var s1 := Reap(s, t.now).0; x in s1.pending && SameSlot(s1.pending[x], a) && !Begun(s1.pending[x])
    ensures CarefulRun(Prepare(s, a, false, t).0, calls) && !Bootable(Run(Prepare(s, a, false, t).0, calls).disk)
  {
    hide Inv, Replays, Restartable, Prepare, Reap, Check, Run, CarefulRun, Usable, Now, Beginning, Bootable;
    CanReplay(s);
    ReapInv(s, t.now);
    ReapReplays(s, t.now);
    PrepareInv(s, a, false, t);
    PreparedNow(s, a, t);
    NothingDue(s, t.now);
    var s1, s' := Reap(s, t.now).0, Prepare(s, a, false, t).0;
    var check := Check(s1.broker, t.wall, s1.ledger.runs[a.run].app, a.slot);
    var p, prompted := Reserved(s1, a, check.grant, t), check.grant.condition == RequiresApproval;
    EntryFacts(s1, x);
    NextIsFree(s1);
    StillHeld(s, t.now, x);
    var first := BeginsBeside(s', s1, p, s1.nextInv, prompted, t);
    RunInv(s', first);
    StillUsable(s1, p, t);
    var records := s1.ledger.records + Beginning(p.run, p.Key(), s1.nextInv, prompted);
    var second := CompletesBeside(Run(s', first), s1, records, a, p.(authorized := true), x, s1.nextInv, t);
    InARow(s', first, second);
    calls := first + second;
    WaitsInBook(s1, x);
    StillSteady(s1);
    MisdirectedCancellation(s1.ledger.records, x, p.Key(), s1.nextInv, prompted);
    NotBootable(Run(s', calls).disk);
  }

  /** After reaping, what is pending is held. */
  lemma StillHeld(s: Kernel, now: Time, x: InvId)
    requires Inv(s) && Held(s) && Willing(s) && x in Reap(s, now).0.pending
    ensures var s1 := Reap(s, now).0;
            Held(s1) && HeldBy(s1.pending[x], s1.tokens, x) && x !in s1.flags && now < s1.pending[x].deadline
            && s1.nextInv !in s1.flags
  {
    hide Inv, Reap;
    ReapFewer(s, now);
    FewerHeld(s, Reap(s, now).0);
    NothingDue(s, now);
    assert x !in PendingDue(Reap(s, now).0, now);
  }

  lemma NextIsFree(s: Kernel)
    requires Inv(s)
    ensures s.nextInv !in s.pending
  {
    hide Inv;
    if s.nextInv in s.pending {
      EntryFacts(s, s.nextInv);
    }
  }
}
