/**
  What becomes of prepared work while its caller is busy elsewhere, against a store
  that commits.
 */
module Reservations {
  import opened Basics
  import opened Domain
  import opened Ledger
  import opened Broker
  import opened KernelState
  import opened ActionPath
  import opened KernelInvariant
  import opened ActionInvariant

  /** The store commits from now on. */
  predicate Willing(s: Kernel) {
    s.script == [] && !s.recovery
  }

  lemma WillingWrite(s: Kernel, rs: seq<Record>)
    requires Willing(s)
    ensures Willing(Write(s, rs).0)
    ensures AppendAll(s.ledger, rs).Some? ==> Write(s, rs).1 && Write(s, rs).0.disk.records == s.ledger.records + rs
  {
  }

  lemma WillingOpen(s: Kernel, a: Attempt, direct: bool, app: AppId, grant: Grant, t: Clock)
    requires Willing(s) && Declares(s.registry, a.slot.cap)
    ensures Willing(Open(s, a, direct, app, grant, t).0)
  {
    hide Write;
    var key := Key(a.slot, grant.id);
    WillingWrite(s, [Record(ApprovalRequested(a.run, key), s.nextInv)]);
    WillingWrite(s, [Record(Invoked(a.run, key), s.nextInv)]);
  }

  lemma WillingPrepare(s: Kernel, a: Attempt, direct: bool, t: Clock)
    requires Willing(s)
    ensures Willing(Reap(s, t.now).0) && Willing(Prepare(s, a, direct, t).0)
  {
    hide Write, Check, Open, Close;
    WillingWrite(s, Close(s, PendingDue(s, t.now)));
    var s1 := Reap(s, t.now).0;
    if Inadmissible(s1, a).None? {
      var app := s1.ledger.runs[a.run].app;
      var check := Check(s1.broker, t.wall, app, a.slot);
      if check.Denied? {
        WillingWrite(s1, [Record(Refused(a.run, a.slot, check.reason), 0)]);
      } else {
        WillingOpen(s1, a, direct, app, check.grant, t);
      }
    }
  }

  /** Aborting fails exactly if the reservation is gone. */
  lemma AbortFailsIff(s: Kernel, id: InvId)
    requires Inv(s) && Willing(s) && id in s.tokens && s.tokens[id].Prepared?
    ensures Abort(s, id).1.Failure? <==> id !in s.pending
  {
    hide Inv;
    if id in s.pending {
      var p := s.pending[id];
      EntryFacts(s, id);
      AppendQuiet(s.ledger, [Record(Cancelled(p.run, p.slot), id)]);
    }
  }

  lemma WriteKeepsRuns(s: Kernel, r: Record)
    requires !r.event.RunStarted? && !r.event.RunEnded?
    ensures Write(s, [r]).0.ledger.runs == s.ledger.runs
  {
    assert [r][1..] == [] && AppendAll(Append(s.ledger, r), []) == Some(Append(s.ledger, r));
  }

  /** Open work is added to, and nothing else happens to it. */
  lemma OpenKeeps(s: Kernel, a: Attempt, direct: bool, app: AppId, grant: Grant, t: Clock, id: InvId)
    requires Declares(s.registry, a.slot.cap) && id != s.nextInv && id in s.tokens
    ensures var s' := Open(s, a, direct, app, grant, t).0;
            && s'.ledger.runs == s.ledger.runs && (id in s'.pending <==> id in s.pending)
            && id in s'.tokens && s'.tokens[id] == s.tokens[id]
  {
    hide Write;
    var key := Key(a.slot, grant.id);
    WriteKeepsRuns(s, Record(ApprovalRequested(a.run, key), s.nextInv));
    WriteKeepsRuns(s, Record(Invoked(a.run, key), s.nextInv));
  }

  /**
    After someone else's preparation, successful or not, a prepared child can no longer
    be aborted exactly if it was cancelled or late by then. Its run stays active.
   */
  lemma ReservationGoneIff(s: Kernel, id: InvId, a: Attempt, direct: bool, t: Clock)
    requires Inv(s) && Willing(s)
    requires id in s.pending && id in s.tokens && s.tokens[id].Prepared?
    ensures var s' := Prepare(s, a, direct, t).0;
            && id in s'.tokens && s'.tokens[id].Prepared?
            && (Abort(s', id).1.Failure? <==> id in s.flags || s.pending[id].deadline <= t.now)
            && s.pending[id].run in s'.ledger.runs && s'.ledger.runs[s.pending[id].run].active
  {
    hide Inv, Write, Open, Check, Close, Abort;
    var s' := Prepare(s, a, direct, t).0;
    EntryFacts(s, id);
    ReapKeepsRuns(s, t.now);
    WillingPrepare(s, a, direct, t);
    PrepareInv(s, a, direct, t);
    var (s1, ok) := Reap(s, t.now);
    ReapsDue(s, id, t.now);
    if Inadmissible(s1, a).None? {
      var app := s1.ledger.runs[a.run].app;
      var check := Check(s1.broker, t.wall, app, a.slot);
      if check.Denied? {
        WriteKeepsRuns(s1, Record(Refused(a.run, a.slot, check.reason), 0));
      } else {
        OpenKeeps(s1, a, direct, app, check.grant, t, id);
      }
    }
    AbortFailsIff(s', id);
  }

  lemma ReapsDue(s: Kernel, id: InvId, now: Time)
    requires Inv(s) && Willing(s) && id in s.pending
    ensures var (s1, ok) := Reap(s, now);
            && ok && (id in s1.pending <==> id !in s.flags && now < s.pending[id].deadline)
            && s1.tokens == s.tokens && s1.nextInv == s.nextInv
  {
    hide Inv, Write, Close;
    var ids := PendingDue(s, now);
    CloseRecords(s, ids);
    AppendQuiet(s.ledger, Close(s, ids));
    WillingWrite(s, Close(s, ids));
  }

  /** What a caller does that cancels its own prepared work: abort it and, if that succeeds, end its run. */
  function CleanUp(s: Kernel, id: InvId, run: RunId): Kernel
    requires id in s.tokens && s.tokens[id].Prepared?
  {
    var (s1, r) := Abort(s, id);
    if r.Failure? then s1 else EndRun(s1, run, RunCancelled).0
  }

  lemma AbortKeepsRuns(s: Kernel, id: InvId)
    requires Willing(s) && id in s.tokens && s.tokens[id].Prepared?
    ensures Abort(s, id).0.ledger.runs == s.ledger.runs && Willing(Abort(s, id).0)
  {
    hide Write;
    if id in s.pending {
      var r := Record(Cancelled(s.pending[id].run, s.pending[id].slot), id);
      WriteKeepsRuns(s, r);
      WillingWrite(s, [r]);
    }
  }

  lemma EndsActive(s: Kernel, run: RunId, how: RunEnd)
    requires Inv(s) && Willing(s) && Active(s.ledger.runs, run)
    ensures EndRun(s, run, how).1 == Done && !Active(EndRun(s, run, how).0.ledger.runs, run)
  {
    hide Inv, Close;
    ClosingBatch(s, PendingOfRun(s, run), [run], how);
  }

  /** Cleaning up leaves the run open exactly if the kernel no longer holds the work. */
  lemma CleanUpLeavesOpenIff(s: Kernel, id: InvId, run: RunId)
    requires Inv(s) && Willing(s) && id in s.tokens && s.tokens[id].Prepared? && Active(s.ledger.runs, run)
    ensures Active(CleanUp(s, id, run).ledger.runs, run) <==> id !in s.pending
  {
    hide Inv, Abort, EndRun;
    AbortFailsIff(s, id);
    AbortKeepsRuns(s, id);
    AbortInv(s, id);
    if !Abort(s, id).1.Failure? {
      EndsActive(Abort(s, id).0, run, RunCancelled);
    }
  }
}
