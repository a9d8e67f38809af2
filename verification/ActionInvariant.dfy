/**
  The action path keeps the invariant, whatever the store answers.
 */
module ActionInvariant {
  import opened Basics
  import opened Domain
  import opened Ledger
  import opened Broker
  import opened ActionLog
  import opened KernelState
  import opened ActionPath
  import opened Provenance
  import opened KernelInvariant

  // ----- Writing records -----

  predicate Plain(rs: seq<Record>) {
    forall r | r in rs :: !r.event.RunStarted? && !r.event.Produced?
  }

  lemma {:induction false} PlainKeepsRuns(l: RunLedger, rs: seq<Record>)
    requires AppendAll(l, rs).Some? && Plain(rs)
    ensures AppendAll(l, rs).value.runs.Keys == l.runs.Keys
    decreases |rs|
  {
    if rs != [] {
      PlainKeepsRuns(Append(l, rs[0]), rs[1..]);
    }
  }

  lemma PlainKeepsState(l: RunLedger, d: Durable, nextId: nat, rs: seq<Record>)
    requires StateOk(l, d, nextId) && d.records == l.records && AppendAll(l, rs).Some? && Plain(rs)
    ensures StateOk(AppendAll(l, rs).value, d.(records := l.records + rs), nextId)
  {
    var l' := AppendAll(l, rs).value;
    var d' := d.(records := l.records + rs);
    AppendAllSound(l, rs);
    AppendAllGrows(l, rs);
    PlainKeepsRuns(l, rs);
    ValidatedAppend(d, d', rs);
  }

  /** What memory looks like once `rs` are written and the tables updated. */
  function After(s: Kernel, rs: seq<Record>, pending: PendingTable, tokens: map<InvId, Token>, nextInv: InvId): Kernel
    requires AppendAll(s.ledger, rs).Some?
  {
    s.(ledger := AppendAll(s.ledger, rs).value, pending := pending, tokens := tokens, nextInv := nextInv)
  }

  /** Either the write commits and memory moves on, or nothing but the store's view changes. */
  lemma WriteInv(s: Kernel, rs: seq<Record>, pending: PendingTable, tokens: map<InvId, Token>, nextInv: InvId)
    requires Inv(s) && AppendAll(s.ledger, rs).Some?
    requires !s.recovery ==> MemoryOk(After(s, rs, pending, tokens, nextInv))
    ensures Write(s, rs).1 ==> Inv(Write(s, rs).0.(pending := pending, tokens := tokens, nextInv := nextInv))
    ensures !Write(s, rs).1 ==> Inv(Write(s, rs).0)
  {
    if !s.recovery {
      var m := After(s, rs, pending, tokens, nextInv);
      var d := Projection(s).(records := AppendAll(s.ledger, rs).value.records);
      assert Projection(m) == d;
      if Offer(s, d).1 {
        OfferAdopted(s, m, Write(s, rs).0.(pending := pending, tokens := tokens, nextInv := nextInv));
      } else {
        OfferFailed(s, d);
      }
    }
  }

  /** One record of an active run, and a table that fits the book after it. */
  lemma OneRecord(s: Kernel, r: Record, b': Book, pending: PendingTable, tokens: map<InvId, Token>, nextInv: InvId)
    requires Inv(s) && Active(s.ledger.runs, r.event.run) && Plain([r]) && !r.event.RunEnded?
    requires TrackStep(Track(s.ledger.records, false).value, r, false) == Some(b')
    requires !s.recovery ==> BookMatches(b', pending, tokens, nextInv, false)
    requires PendingOk(s.registry, s.handlers, s.ledger.runs, s.broker.grants, pending)
    ensures AppendAll(s.ledger, [r]).Some?
    ensures Write(s, [r]).1 ==> Inv(Write(s, [r]).0.(pending := pending, tokens := tokens, nextInv := nextInv))
    ensures !Write(s, [r]).1 ==> Inv(Write(s, [r]).0)
  {
    AppendQuiet(s.ledger, [r]);
    PlainKeepsState(s.ledger, Projection(s), s.nextId, [r]);
    TrackAppend(s.ledger.records, r, false);
    WriteInv(s, [r], pending, tokens, nextInv);
  }

  // ----- Book updates -----

  lemma BookClose(b: Book, pending: PendingTable, tokens: map<InvId, Token>, nextInv: InvId, id: InvId)
    requires BookMatches(b, pending, tokens, nextInv, false) && id in b
    ensures BookMatches(b[id := b[id].(phase := Closed)], pending - {id}, tokens, nextInv, false)
  {
  }

  lemma BookOpen(b: Book, pending: PendingTable, tokens: map<InvId, Token>, nextInv: InvId, it: Item, p: Pending)
    requires BookMatches(b, pending, tokens, nextInv, false) && 1 <= nextInv
    requires EntryMatches(b[nextInv := it], nextInv, p) && it.phase != Granted && it.phase != Closed
    ensures BookMatches(b[nextInv := it], pending[nextInv := p], tokens[nextInv := Prepared(it.prompted)], nextInv + 1, false)
  {
    var b', tokens' := b[nextInv := it], tokens[nextInv := Prepared(it.prompted)];
    forall id | id in tokens' ensures 1 <= id < nextInv + 1 && TokenMatches(b', id, tokens'[id]) {
      assert id != nextInv ==> TokenMatches(b, id, tokens[id]);
    }
    var pending' := pending[nextInv := p];
    forall id | id in pending' ensures EntryMatches(b', id, pending'[id]) {
      assert id != nextInv ==> EntryMatches(b, id, pending[id]);
    }
  }

  lemma BookGrant(b: Book, pending: PendingTable, tokens: map<InvId, Token>, nextInv: InvId, id: InvId)
    requires BookMatches(b, pending, tokens, nextInv, false)
    requires id in pending && !pending[id].authorized && b[id].prompted
    ensures BookMatches(b[id := b[id].(phase := Granted)], pending, tokens - {id}, nextInv, false)
  {
  }

  lemma BookDispatch(b: Book, pending: PendingTable, tokens: map<InvId, Token>, nextInv: InvId, id: InvId, deadline: Time)
    requires BookMatches(b, pending, tokens, nextInv, false) && id in pending
    ensures BookMatches(b[id := b[id].(phase := Executing)], pending[id := pending[id].(authorized := true)],
                        tokens[id := Authorized(deadline)], nextInv, false)
  {
  }

  // ----- Single operations -----

  /** One terminal record, and the reservation is gone. */
  lemma CloseOne(s: Kernel, id: InvId, e: Event)
    requires Inv(s) && id in s.pending && IsTerminal(e)
    requires var b := Track(s.ledger.records, false);
             b.Some? && id in b.value && e.run == s.pending[id].run
             && TrackStep(b.value, Record(e, id), false) == Some(b.value[id := b.value[id].(phase := Closed)])
    ensures var (s1, ok) := Write(s, [Record(e, id)]);
            Inv(if ok then s1.(pending := s.pending - {id}) else s1)
  {
    hide StateOk, Restorable, Below, HandlersOk;
    EntryFacts(s, id);
    var b := Track(s.ledger.records, false).value;
    if !s.recovery {
      BookClose(b, s.pending, s.tokens, s.nextInv, id);
    }
    OneRecord(s, Record(e, id), b[id := b[id].(phase := Closed)], s.pending - {id}, s.tokens, s.nextInv);
  }

  lemma CloseStaleInv(s: Kernel, id: InvId, v: Verdict)
    requires Inv(s) && id in s.pending
    ensures Inv(CloseStale(s, id, v).0)
  {
    hide Inv, Write;
    if v.RunGone? {
      ConsumeInv(s, id);
    } else {
      EntryFacts(s, id);
      var s0 := if v.Stopped? then s.(flags := s.flags + {id}) else s;
      FlagsInv(s, s0.flags);
      var p := s.pending[id];
      var e := if v.NotGranted? then Refused(p.run, p.slot, v.reason) else Cancelled(p.run, p.slot);
      CloseOne(s0, id, e);
      var (s1, ok) := Write(s0, [Record(e, id)]);
      if !ok {
        ConsumeInv(s1, id);
      }
    }
  }

  /** The execution token is handed out. */
  lemma DispatchedInv(s: Kernel, id: InvId)
    requires Inv(s) && id in s.pending
    requires var b := Track(s.ledger.records, false);
             b.Some? && id in b.value && (b.value[id].phase == Granted || !b.value[id].prompted)
    ensures var p := s.pending[id];
            var (s1, ok) :=
              if p.grant.condition == RequiresApproval then Write(s, [Record(Invoked(p.run, p.Key()), id)]) else (s, true);
            Inv(if ok then s1.(pending := s.pending[id := p.(authorized := true)],
                               tokens := s.tokens[id := Authorized(p.deadline)]) else s1)
  {
    hide StateOk, Restorable, Below, HandlersOk;
    EntryFacts(s, id);
    var p, b := s.pending[id], Track(s.ledger.records, false).value;
    var pending', tokens' := s.pending[id := p.(authorized := true)], s.tokens[id := Authorized(p.deadline)];
    var b' := b[id := b[id].(phase := Executing)];
    if !s.recovery {
      BookDispatch(b, s.pending, s.tokens, s.nextInv, id, p.deadline);
    }
    if p.grant.condition == RequiresApproval {
      OneRecord(s, Record(Invoked(p.run, p.Key()), id), b', pending', tokens', s.nextInv);
    } else {
      assert b' == b;
    }
  }

  lemma DispatchInv(s: Kernel, id: InvId, t: Clock)
    requires Inv(s) && id in s.pending && !s.pending[id].authorized
    requires var b := Track(s.ledger.records, false);
             b.Some? && id in b.value && (b.value[id].phase == Granted || !b.value[id].prompted)
    ensures Inv(Dispatch(s, id, t).0) && Dispatch(s, id, t).1 != Failure(HandlerNotBound)
  {
    hide Inv, Write;
    EntryFacts(s, id);
    var p, v := s.pending[id], Revalidate(s, id, t);
    if !v.Live? {
      CloseStaleInv(s, id, v);
      SpendTokenInv(CloseStale(s, id, v).0, id);
    } else {
      DispatchedInv(s, id);
      var (s1, ok) :=
        if p.grant.condition == RequiresApproval then Write(s, [Record(Invoked(p.run, p.Key()), id)]) else (s, true);
      if !ok {
        ConsumeInv(s1, id);
        SpendTokenInv(Consume(s1, id, false), id);
      }
    }
  }

  lemma GrantedInv(s: Kernel, id: InvId)
    requires Inv(s) && id in s.pending && !s.pending[id].authorized && id !in s.tokens
    requires var b := Track(s.ledger.records, false);
             b.Some? && id in b.value && b.value[id].phase == Requested && b.value[id].prompted
    ensures var p := s.pending[id];
            var r := Record(ApprovalGranted(p.run, p.Key()), id);
            var (s1, ok) := Write(s, [r]);
            Inv(s1) && (ok ==> Track(s1.ledger.records, false) == TrackStep(Track(s.ledger.records, false).value, r, false))
  {
    hide StateOk, Restorable, Below, HandlersOk;
    EntryFacts(s, id);
    var p, b := s.pending[id], Track(s.ledger.records, false).value;
    var r := Record(ApprovalGranted(p.run, p.Key()), id);
    if !s.recovery {
      BookGrant(b, s.pending, s.tokens, s.nextInv, id);
      assert s.tokens - {id} == s.tokens;
    }
    OneRecord(s, r, b[id := b[id].(phase := Granted)], s.pending, s.tokens, s.nextInv);
    TrackAppend(s.ledger.records, r, false);
  }

  lemma AuthorizeInv(s: Kernel, id: InvId, t: Clock)
    requires Inv(s) && id in s.tokens && s.tokens[id].Answered?
    ensures Inv(Authorize(s, id, t).0) && Authorize(s, id, t).1 != Failure(HandlerNotBound)
  {
    hide Inv, Write, Dispatch;
    var s0 := s.(tokens := s.tokens - {id});
    SpendTokenInv(s, id);
    if id !in s.pending || s.pending[id].authorized {
      SpendTokenInv(s0, id);
    } else {
      EntryFacts(s, id);
      var p, decision := s.pending[id], s.tokens[id].decision;
      if decision.None? {
        DispatchInv(s0, id, t);
      } else if decision.value {
        GrantedInv(s0, id);
        var (s1, ok) := Write(s0, [Record(ApprovalGranted(p.run, p.Key()), id)]);
        if ok {
          DispatchInv(s1, id, t);
        } else {
          ConsumeInv(s1, id);
          SpendTokenInv(Consume(s1, id, false), id);
        }
      } else {
        CloseOne(s0, id, ApprovalDenied(p.run, p.Key()));
        var (s1, ok) := Write(s0, [Record(ApprovalDenied(p.run, p.Key()), id)]);
        if !ok {
          ConsumeInv(s1, id);
        }
        SpendTokenInv(Consume(s1, id, ok), id);
      }
    }
  }

  lemma FailInv(s: Kernel, id: InvId)
    requires Inv(s) && id in s.pending && s.pending[id].authorized
    ensures Inv(Fail(s, id).0)
  {
    hide Inv, Write;
    EntryFacts(s, id);
    var e := Failed(s.pending[id].run, s.pending[id].Key());
    CloseOne(s, id, e);
    var (s1, ok) := Write(s, [Record(e, id)]);
    if !ok {
      ConsumeInv(s1, id);
    }
  }

  lemma AbortInv(s: Kernel, id: InvId)
    requires Inv(s) && id in s.tokens && (s.tokens[id].Prepared? || s.tokens[id].Authorized?)
    ensures Inv(Abort(s, id).0)
  {
    hide Inv, Write;
    if id !in s.pending {
      SpendTokenInv(s, id);
    } else {
      EntryFacts(s, id);
      var e := Cancelled(s.pending[id].run, s.pending[id].slot);
      CloseOne(s, id, e);
      var (s1, ok) := Write(s, [Record(e, id)]);
      SpendTokenInv(if ok then s1.(pending := s1.pending - {id}) else s1, id);
    }
  }

  /** What happens outside the kernel: approval, execution, dropped tokens, cancellation requests. */
  lemma OutsideInv(s: Kernel, id: InvId, answer: bool, outcome: Execution, now: Time, run: RunId)
    requires Inv(s)
    ensures id in s.tokens && s.tokens[id].Prepared? ==> Inv(AwaitApproval(s, id, answer))
    ensures id in s.tokens && s.tokens[id].Authorized? ==> Inv(Execute(s, id, outcome, now))
    ensures id in s.tokens ==> Inv(DropToken(s, id))
    ensures Inv(CancelRun(s, run))
  {
    hide Inv, Write;
    FlagsInv(s, s.flags + PendingOfRun(s, run));
    if id in s.tokens {
      SpendTokenInv(s, id);
      if s.tokens[id].Prepared? {
        TokenMoves(s, id, Answered(if s.tokens[id].prompted then Some(answer) else None));
      }
      if s.tokens[id].Authorized? {
        TokenMoves(s, id, Executed(outcome));
        TokenMoves(s, id, Executed(Skipped));
        FlagsInv(s.(tokens := s.tokens[id := Executed(Skipped)]), s.flags + {id});
      }
    }
  }

  // ----- Closing several invocations and runs at once -----

  /** Cancelling pending invocations closes exactly those. */
  lemma TrackClose(b: Book, pending: PendingTable, order: seq<InvId>)
    requires TableMatches(b, pending) && Distinct(order) && forall id | id in order :: id in pending && id != 0
    ensures TrackAll(b, Cancellations(pending, order), false) == Some(CloseIds(b, Elems(order)))
  {
    var rs := Cancellations(pending, order);
    forall i | 0 <= i < |order|
      ensures IsOpen(b, order[i]) && rs[i] == Record(Cancelled(b[order[i]].run, b[order[i]].key.slot), order[i])
    {
      assert order[i] in order;
      assert EntryMatches(b, order[i], pending[order[i]]);
    }
    TrackCancellations(b, rs, order, false);
  }

  lemma QuietClose(s: Kernel, order: seq<InvId>)
    requires PendingOk(s.registry, s.handlers, s.ledger.runs, s.broker.grants, s.pending)
    requires forall id | id in order :: id in s.pending
    ensures Quiet(s.ledger.runs, Cancellations(s.pending, order)) && Plain(Cancellations(s.pending, order))
  {
    var rs := Cancellations(s.pending, order);
    forall r | r in rs ensures r.event.Cancelled? && Active(s.ledger.runs, r.event.run) {
      var i :| 0 <= i < |rs| && rs[i] == r;
      assert order[i] in order;
      assert EntryOk(s.registry, s.handlers, s.ledger.runs, s.broker.grants, s.pending[order[i]]);
    }
  }

  lemma CloseRecords(s: Kernel, ids: set<InvId>)
    requires Inv(s) && ids <= s.pending.Keys
    ensures Quiet(s.ledger.runs, Close(s, ids)) && Plain(Close(s, ids))
    ensures Track(s.ledger.records, false).Some?
    ensures TrackAll(Track(s.ledger.records, false).value, Close(s, ids), false)
            == Some(CloseIds(Track(s.ledger.records, false).value, ids))
  {
    hide StateOk, Restorable, Below, HandlersOk, EntryMatches, EntryOk, TokenMatches;
    var order := InOrder(ids * s.pending.Keys, s.nextInv);
    forall id | id in ids ensures id in order {
      assert EntryMatches(Track(s.ledger.records, false).value, id, s.pending[id]);
      EntryFacts(s, id);
    }
    assert Elems(order) == ids;
    forall id | id in order ensures id in s.pending && id != 0 {
      EntryFacts(s, id);
    }
    TrackClose(Track(s.ledger.records, false).value, s.pending, order);
    QuietClose(s, order);
  }

  /** Runs end together with all their pending work. */
  predicate Covers(pending: PendingTable, ids: set<InvId>, runs: seq<RunId>) {
    && ids <= pending.Keys
    && (forall id | id in pending && pending[id].run in runs :: id in ids)
  }

  lemma ClosingBatch(s: Kernel, ids: set<InvId>, runs: seq<RunId>, how: RunEnd)
    requires Inv(s) && Covers(s.pending, ids, runs)
    requires Distinct(runs) && forall r | r in runs :: Active(s.ledger.runs, r)
    ensures var rs := Close(s, ids) + Ends(runs, how);
            && Plain(rs)
            && AppendAll(s.ledger, rs) == Some(RunLedger(s.ledger.records + rs, Deactivate(s.ledger.runs, Elems(runs))))
            && StateOk(AppendAll(s.ledger, rs).value, Projection(s).(records := s.ledger.records + rs), s.nextId)
            && (!s.recovery ==> Track(s.ledger.records + rs, false)
                                == Some(CloseIds(Track(s.ledger.records, false).value, ids)))
  {
    var rs, b := Close(s, ids) + Ends(runs, how), Track(s.ledger.records, false).value;
    CloseRecords(s, ids);
    AppendClosing(s.ledger, Close(s, ids), runs, how);
    PlainKeepsState(s.ledger, Projection(s), s.nextId, rs);
    if !s.recovery {
      TrackEnds(CloseIds(b, ids), runs, how, false);
      TrackAllConcat(b, Close(s, ids), Ends(runs, how), false);
      TrackAppendAll(s.ledger.records, rs, false);
    }
  }

  lemma BookCloseAll(b: Book, pending: PendingTable, tokens: map<InvId, Token>, nextInv: InvId, ids: set<InvId>)
    requires BookMatches(b, pending, tokens, nextInv, false)
    ensures BookMatches(CloseIds(b, ids), pending - ids, tokens, nextInv, false)
  {
  }

  lemma PendingElsewhere(registry: Registry, handlers: Handlers, index: RunIndex, grants: seq<Grant>, pending: PendingTable,
                         ids: set<InvId>, runs: seq<RunId>)
    requires PendingOk(registry, handlers, index, grants, pending) && Covers(pending, ids, runs)
    ensures PendingOk(registry, handlers, Deactivate(index, Elems(runs)), grants, pending - ids)
  {
  }

  lemma CloseInv(s: Kernel, ids: set<InvId>, runs: seq<RunId>, how: RunEnd)
    requires Inv(s) && Covers(s.pending, ids, runs)
    requires Distinct(runs) && forall r | r in runs :: Active(s.ledger.runs, r)
    ensures var (s1, ok) := Write(s, Close(s, ids) + Ends(runs, how));
            (ok ==> Inv(s1.(pending := s.pending - ids))) && (!ok ==> Inv(s1))
  {
    hide StateOk, Restorable, Below, HandlersOk;
    var rs := Close(s, ids) + Ends(runs, how);
    ClosingBatch(s, ids, runs, how);
    if !s.recovery {
      PendingElsewhere(s.registry, s.handlers, s.ledger.runs, s.broker.grants, s.pending, ids, runs);
      BookCloseAll(Track(s.ledger.records, false).value, s.pending, s.tokens, s.nextInv, ids);
    }
    WriteInv(s, rs, s.pending - ids, s.tokens, s.nextInv);
  }

  lemma ReapInv(s: Kernel, now: Time)
    requires Inv(s)
    ensures Inv(Reap(s, now).0)
  {
    hide Inv, Write;
    var ids := PendingDue(s, now);
    CloseInv(s, ids, [], RunCancelled);
    assert Close(s, ids) + Ends([], RunCancelled) == Close(s, ids);
  }

  /** Reaping ends no run. */
  lemma ReapKeepsRuns(s: Kernel, now: Time)
    requires Inv(s)
    ensures Reap(s, now).0.ledger.runs == s.ledger.runs
  {
    hide Inv;
    var ids := PendingDue(s, now);
    CloseRecords(s, ids);
    AppendQuiet(s.ledger, Close(s, ids));
  }

  lemma EndRunInv(s: Kernel, run: RunId, how: RunEnd)
    requires Inv(s)
    ensures Inv(EndRun(s, run, how).0)
  {
    hide Inv, Write;
    if Active(s.ledger.runs, run) {
      var ids := PendingOfRun(s, run);
      CloseInv(s, ids, [run], how);
      var (s1, ok) := Write(s, Close(s, ids) + Ends([run], how));
      if ok {
        FlagsInv(s1.(pending := s.pending - ids), Forget(s1, ids).flags);
      }
    }
  }

  // ----- Starting runs and preparing work -----

  lemma StartRunInv(s: Kernel, app: AppId, parent: Option<RunId>)
    requires Inv(s)
    ensures Inv(StartRun(s, app, parent).0)
  {
    hide Inv, Write;
    var s0, r := s.(nextId := s.nextId + 1), Record(RunStarted(s.nextId, app, parent), 0);
    if ParentOk(s.ledger.runs, r.event) {
      MoreIds(s, s.nextId + 1);
      StartedInv(s, r, app, parent);
    }
  }

  lemma StartedInv(s: Kernel, r: Record, app: AppId, parent: Option<RunId>)
    requires Inv(s) && r == Record(RunStarted(s.nextId, app, parent), 0) && ParentOk(s.ledger.runs, r.event)
    ensures Inv(Write(s.(nextId := s.nextId + 1), [r]).0)
  {
    hide StateOk, Restorable, Below, HandlersOk, PendingOk, BookMatches;
    var s0 := s.(nextId := s.nextId + 1);
    MoreIds(s, s.nextId + 1);
    StartedState(s, r, app, parent);
    TrackAppend(s.ledger.records, r, false);
    WriteInv(s0, [r], s.pending, s.tokens, s.nextInv);
  }

  lemma StartedState(s: Kernel, r: Record, app: AppId, parent: Option<RunId>)
    requires Inv(s) && r == Record(RunStarted(s.nextId, app, parent), 0) && ParentOk(s.ledger.runs, r.event)
    ensures AppendAll(s.ledger, [r]) == Some(Append(s.ledger, r))
    ensures StateOk(Append(s.ledger, r), Projection(s).(records := s.ledger.records + [r]), s.nextId + 1)
    ensures PendingOk(s.registry, s.handlers, Append(s.ledger, r).runs, s.broker.grants, s.pending)
  {
    assert s.nextId !in s.ledger.runs;
    assert AppendAll(Append(s.ledger, r), []) == Some(Append(s.ledger, r));
    AppendSound(s.ledger, r);
    ValidatedAppend(Projection(s), Projection(s).(records := s.ledger.records + [r]), [r]);
  }

  /** A new reservation. */
  lemma ReserveInv(s: Kernel, r: Record, it: Item, p: Pending)
    requires Inv(s) && r.inv == s.nextInv && !r.event.RunEnded? && Plain([r])
    requires TrackStep(map[], r, false) == Some(map[s.nextInv := it])
    requires EntryOk(s.registry, s.handlers, s.ledger.runs, s.broker.grants, p) && p.run == r.event.run
    requires EntryMatches(map[s.nextInv := it], s.nextInv, p) && it.phase != Granted
    ensures var (s1, ok) := Write(s, [r]);
            Inv(if ok then s1.(pending := s.pending[r.inv := p], tokens := s.tokens[r.inv := Prepared(it.prompted)],
                               nextInv := r.inv + 1) else s1)
  {
    hide StateOk, Restorable, Below, HandlersOk;
    var id, b := r.inv, Track(s.ledger.records, false).value;
    if !s.recovery {
      BookOpen(b, s.pending, s.tokens, id, it, p);
    }
    OneRecord(s, r, b[id := it], s.pending[id := p], s.tokens[id := Prepared(it.prompted)], id + 1);
  }

  lemma OpenInv(s: Kernel, a: Attempt, direct: bool, app: AppId, grant: Grant, t: Clock)
    requires Inv(s) && Inadmissible(s, a).None? && app == s.ledger.runs[a.run].app
    requires grant in s.broker.grants && CoversFor(grant, app, a.slot)
    ensures Inv(Open(s, a, direct, app, grant, t).0)
  {
    hide Inv, Write;
    if Bound(s.handlers, a.slot.cap) && !(grant.condition == Notify && !direct && !a.noticeOk) {
      var prompted, id := NeedsPrompt(s, a, direct, grant), s.nextInv;
      var key := Key(a.slot, grant.id);
      var e := if prompted then ApprovalRequested(a.run, key) else Invoked(a.run, key);
      var p := Pending(a.run, app, a.slot, grant, s.registry[a.slot.cap.provider], t.now + a.timeout, false);
      NextIsPositive(s);
      ReserveInv(s, Record(e, id), Item(a.run, key, if prompted then Requested else Executing, prompted), p);
    }
  }

  lemma NextIsPositive(s: Kernel)
    requires Inv(s)
    ensures 1 <= s.nextInv
  {
  }

  /** A record outside any invocation. */
  lemma LoneRecordInv(s: Kernel, e: Event)
    requires Inv(s) && Active(s.ledger.runs, e.run) && e.Refused?
    ensures Inv(Write(s, [Record(e, 0)]).0)
  {
    hide StateOk, Restorable, Below, HandlersOk, PendingOk, BookMatches;
    assert s.recovery || BookMatches(Track(s.ledger.records, false).value, s.pending, s.tokens, s.nextInv, false);
    OneRecord(s, Record(e, 0), Track(s.ledger.records, false).value, s.pending, s.tokens, s.nextInv);
  }

  lemma PrepareInv(s: Kernel, a: Attempt, direct: bool, t: Clock)
    requires Inv(s)
    ensures Inv(Prepare(s, a, direct, t).0)
  {
    hide Inv, Write;
    ReapInv(s, t.now);
    var s1 := Reap(s, t.now).0;
    if Reap(s, t.now).1 && Inadmissible(s1, a).None? {
      var app := s1.ledger.runs[a.run].app;
      var check := Check(s1.broker, t.wall, app, a.slot);
      if check.Denied? {
        LoneRecordInv(s1, Refused(a.run, a.slot, check.reason));
      } else {
        OpenInv(s1, a, direct, app, check.grant, t);
      }
    }
  }

  lemma SurfaceActionInv(s: Kernel, app: AppId, a: Attempt, t: Clock)
    requires Inv(s)
    ensures Inv(SurfaceAction(s, app, a, t).0)
  {
    hide Inv, Write;
    StartRunInv(s, app, None);
    var (s1, r) := StartRun(s, app, None);
    if r.RunOpened? {
      PrepareInv(s1, a.(run := r.run), app == a.slot.cap.provider, t);
      EndRunInv(Prepare(s1, a.(run := r.run), app == a.slot.cap.provider, t).0, r.run, RunFailed);
    }
  }
}
