/**
  Work prepared under a newer grant while other work of the same run, capability and
  data scope executes under an older one: if the newer grant is revoked and the older
  one is used again, careful calls lead to a store no restart accepts.
 */
module TwinGrants {
  import opened Basics
  import opened Domain
  import opened Ledger
  import opened Broker
  import opened ActionLog
  import opened ReplayAgreement
  import opened KernelState
  import opened ActionPath
  import opened Lifecycle
  import opened KernelInvariant
  import opened ActionInvariant
  import opened Recovery
  import opened Runs
  import opened HeldWork
  import opened Reservations
  import opened RestartDiscipline
  import opened CarefulRuns
  import opened RestartConditions
  import opened TwinPrompts

  // ----- On the ledger -----

  lemma {:induction false} FindSlotConcat(a: seq<Key>, b: seq<Key>, slot: Slot)
    ensures FindSlot(a + b, slot) == if FindSlot(a, slot).Some? then FindSlot(a, slot) else FindSlot(b, slot)
    decreases |a|
  {
    if a == [] {
      assert a + b == b;
    } else {
      assert (a + b)[1..] == a[1..] + b;
      FindSlotConcat(a[1..], b, slot);
    }
  }

  lemma FindSlotBeside(s: seq<Key>, k: Key, slot: Slot)
    requires k in s && k.slot != slot
    ensures FindSlot(Without(s, k), slot) == FindSlot(s, slot)
  {
    var i := FirstIndex(s, k);
    assert s == s[..i] + ([k] + s[i + 1..]);
    FindSlotConcat(s[..i], [k] + s[i + 1..], slot);
    FindSlotConcat([k], s[i + 1..], slot);
    FindSlotConcat(s[..i], s[i + 1..], slot);
    assert FindSlot([k], slot) == None by {
      assert [k][1..] == [];
    }
  }

  /** The key is the only one of its kind among those executing, and the first of its slot. */
  predicate Foremost(o: Outstanding, key: Key) {
    FindSlot(o.executing, key.slot) == Some(key) && Count(o.executing, key) == 1
  }

  ghost predicate StillForemost(records: seq<Record>, run: RunId, key: Key) {
    Replay(records).Some? ==> Foremost(At(Replay(records).value, run), key)
  }

  lemma ForemostAfter(o: Outstanding, e: Event, key: Key)
    requires Foremost(o, key) && ReplayEvent(o, e).Some?
    requires e.ApprovalRequested? || (e.Invoked? && e.key != key) || (e.Cancelled? && e.slot != key.slot)
    ensures Foremost(ReplayEvent(o, e).value, key)
  {
    if e.Invoked? {
      FindSlotConcat(o.executing, [e.key], key.slot);
    } else if e.Cancelled? {
      var k := FindSlot(o.executing, e.slot);
      if k.Some? {
        FindSlotBeside(o.executing, k.value, key.slot);
      }
    }
  }

  lemma ForemostNext(records: seq<Record>, r: Record, run: RunId, key: Key)
    requires StillForemost(records, run, key)
    requires r.event.ApprovalRequested? || (r.event.Invoked? && r.event.key != key)
          || (r.event.Cancelled? && (r.event.run != run || r.event.slot != key.slot))
    ensures StillForemost(records + [r], run, key)
  {
    hide Foremost, ReplayEvent, Replay;
    ReplayNext(records, r);
    if Replay(records + [r]).Some? && r.event.run == run {
      ForemostAfter(At(Replay(records).value, run), r.event, key);
    }
  }

  lemma {:induction false} ForemostThrough(records: seq<Record>, cs: seq<Record>, run: RunId, key: Key)
    requires StillForemost(records, run, key)
    requires forall c | c in cs :: c.event.Cancelled? && (c.event.run != run || c.event.slot != key.slot)
    ensures StillForemost(records + cs, run, key)
    decreases |cs|
  {
    hide StillForemost;
    if cs == [] {
      assert records + cs == records;
    } else {
      var n := |cs| - 1;
      assert cs[n] in cs && records + cs == records + cs[..n] + [cs[n]];
      ForemostThrough(records, cs[..n], run, key);
      ForemostNext(records + cs[..n], cs[n], run, key);
    }
  }

  /** Cancelling other work of the slot then takes the key, and its own completion finds nothing. */
  lemma KeyTaken(records: seq<Record>, run: RunId, key: Key, y: InvId, x: InvId)
    requires StillForemost(records, run, key)
    ensures Replay(records + [Record(Cancelled(run, key.slot), y)] + [Record(Completed(run, key), x)]).None?
  {
    hide Replay;
    var c, f := Record(Cancelled(run, key.slot), y), Record(Completed(run, key), x);
    ReplayNext(records, c);
    ReplayNext(records + [c], f);
    if Replay(records).Some? {
      var o := At(Replay(records).value, run);
      assert Count(Without(o.executing, key), key) == 0;
    }
  }

  /** Alone in its slot and executing, in a ledger that is steady. */
  lemma AloneIsForemost(records: seq<Record>, x: InvId)
    requires Steady(records) && IsOpen(Track(records, true).value, x) && Track(records, true).value[x].phase == Executing
    requires var b := Track(records, true).value;
             forall i | IsOpen(b, i) && b[i].run == b[x].run && b[i].key.slot == b[x].key.slot :: i == x
    ensures StillForemost(records, Track(records, true).value[x].run, Track(records, true).value[x].key)
  {
    hide Track, Replay, SlotsSafe;
    SteadyAgrees(records);
    var b, m := Track(records, true).value, Replay(records).value;
    var run, key := b[x].run, b[x].key;
    AgreeListed(m, b, x);
    assert Holders(b, run, Executing, key) == {x};
    assert AgreeAt(m, b, run, Executing, key);
    var k := FindSlot(At(m, run).executing, key.slot).value;
    assert k in ListOf(At(m, run), Executing);
    var j := AgreeOwner(m, b, run, Executing, k);
  }

  // ----- By kernel calls -----

  function Revoking(b: Broker, g: GrantId): Broker {
    b.(revoked := b.revoked + {g})
  }

  lemma RevokesNow(s: Kernel, base: Kernel, records: seq<Record>, pending: PendingTable, flags: set<InvId>, g: Grant)
    requires Now(s, base, records, pending, flags) && g in s.broker.grants
    ensures var s' := RevokeGrant(s, g.id).0;
            && Now(s', base.(broker := Revoking(base.broker, g.id)), records, pending, flags + PendingUnder(s, {g.id}))
            && s'.tokens == s.tokens && s'.nextInv == s.nextInv
  {
    var (s1, ok) := Offer(s, Projection(s).(broker := Revoking(s.broker, g.id)));
    assert PendingUnder(s1, {g.id}) == PendingUnder(s, {g.id});
  }

  /** Preparing something invalid reaps whatever is due. */
  lemma ReapsAll(s: Kernel, base: Kernel, records: seq<Record>, pending: PendingTable, flags: set<InvId>, due: set<InvId>,
                 bad: Attempt, t: Clock)
    requires Inv(s) && Now(s, base, records, pending, flags) && !bad.inputOk && PendingDue(s, t.now) == due && due != {}
    ensures var s' := Prepare(s, bad, false, t).0;
            && Now(s', base, records + Close(s, due), pending - due, flags)
            && s'.tokens == s.tokens && s'.nextInv == s.nextInv
  {
    hide Inv, Write, Check, Close;
    CloseRecords(s, due);
    WritesAll(s, base, records, pending, flags, Close(s, due));
  }

  lemma WritesAll(s: Kernel, base: Kernel, records: seq<Record>, pending: PendingTable, flags: set<InvId>, rs: seq<Record>)
    requires Now(s, base, records, pending, flags) && Quiet(s.ledger.runs, rs)
    ensures Write(s, rs).1 && Now(Write(s, rs).0, base, records + rs, pending, flags)
  {
    AppendQuiet(s.ledger, rs);
    WillingWrite(s, rs);
  }

  /** The record cancels some work among these, but not `y`. */
  predicate CancelsOther(c: Record, pending: PendingTable, due: set<InvId>, y: InvId)
    requires due <= pending.Keys
  {
    c.event.Cancelled? && exists id | id in due :: id != y && c.event.run == pending[id].run && c.event.slot == pending[id].slot
  }

  /** The newest invocation is cancelled last. */
  lemma NewestLast(s: Kernel, due: set<InvId>, y: InvId) returns (others: seq<Record>)
    requires due <= s.pending.Keys && y in due && s.nextInv == y + 1
    ensures Close(s, due) == others + [Record(Cancelled(s.pending[y].run, s.pending[y].slot), y)]
    ensures forall c | c in others :: CancelsOther(c, s.pending, due, y)
  {
    assert due * s.pending.Keys == due;
    var before := InOrder(due, y);
    assert InOrder(due, s.nextInv) == before + [y];
    others := Cancellations(s.pending, before);
    forall c | c in others ensures CancelsOther(c, s.pending, due, y) {
      var i :| 0 <= i < |others| && others[i] == c;
      assert before[i] in before && before[i] in due && before[i] != y;
    }
  }

  /** Revoke the newer grant, have everything under it reaped, and let the older work complete. */
  lemma RevokesAndCompletes(s: Kernel, base: Kernel, records: seq<Record>, a: Attempt, g: Grant, x: InvId, y: InvId, p: Pending,
                            t: Clock)
    returns (calls: seq<Call>, now: Kernel)
    requires Inv(s) && Now(s, base, records, base.pending[y := p], base.flags) && s.nextInv == y + 1
    requires g in base.broker.grants && p.grant.id == g.id && PendingDue(base, t.now) == {}
    requires x in base.pending && x != y && base.pending[x].grant.id != g.id && x !in base.flags && base.pending[x].authorized
    requires x in s.tokens && s.tokens[x] == Authorized(base.pending[x].deadline)
    requires Usable(base.(broker := Revoking(base.broker, g.id)), base.pending[x], t)
    ensures now.pending == base.pending[y := p] && now.nextInv == y + 1
    ensures var due := PendingUnder(now, {g.id}); y in due && x !in due
    ensures CarefulRun(s, calls)
    ensures Run(s, calls).disk.records == records + Close(now, PendingUnder(now, {g.id}))
                                          + [Record(Completed(base.pending[x].run, base.pending[x].Key()), x)]
  {
    hide Inv, Usable, Prepare, Finalize, CarefulRun, Run, Step, Careful, RevokeGrant, Close;
    var bad, success := a.(inputOk := false), Returned(true, []);
    var base', pending := base.(broker := Revoking(base.broker, g.id)), base.pending[y := p];
    var due := PendingUnder(s, {g.id});
    var flags := base.flags + due;
    RunsNothing(s);
    RevokesNow(s, base, records, pending, base.flags, g);
    now := RevokeGrant(s, g.id).0;
    RevokeStep(s, g.id);
    calls := Extend(s, [], DoRevoke(g.id), s, now);
    RunInv(s, calls);
    AllUnderDue(now, base, y, p, due, g.id, t.now);
    ReapsAll(now, base', records, pending, flags, due, bad, t);
    var s2 := Prepare(now, bad, false, t).0;
    BadIsCareful(now, bad, t);
    PrepareStep(now, bad, t);
    calls := Extend(s, calls, DoPrepare(bad, t), now, s2);
    UsableInTime(base', base.pending[x], t);
    var s3 := Execute(s2, x, success, t.now);
    TokenSteps(s2, x, t, success);
    AlwaysCareful(s2, DoExecute(x, success, t));
    calls := Extend(s, calls, DoExecute(x, success, t), s2, s3);
    FinishesNow(s3, base', s2.ledger.records, pending - due, flags, x, t);
    TokenSteps(s3, x, t, success);
    AlwaysCareful(s3, DoFinalize(x, t));
    calls := Extend(s, calls, DoFinalize(x, t), s3, Finalize(s3, x, t).0);
  }

  lemma RevokeStep(s: Kernel, g: GrantId)
    ensures Step(s, DoRevoke(g)) == RevokeGrant(s, g).0 && Careful(s, DoRevoke(g))
  {
    hide RevokeGrant;
  }

  lemma UsableInTime(base: Kernel, p: Pending, t: Clock)
    requires Usable(base, p, t)
    ensures t.now < p.deadline
  {
    hide Check;
  }

  lemma AllUnderDue(s: Kernel, base: Kernel, y: InvId, p: Pending, due: set<InvId>, g: GrantId, now: Time)
    requires s.pending == base.pending[y := p] && s.flags == base.flags + due && due == PendingUnder(s, {g})
    requires p.grant.id == g && PendingDue(base, now) == {}
    ensures PendingDue(s, now) == due && y in due
  {
    assert forall id | id in base.pending :: id !in PendingDue(base, now);
  }

  /** What is pending alone in its slot is alone there in the ledger. */
  lemma AloneInBook(s: Kernel, x: InvId)
    requires Inv(s) && Replays(s) && !s.recovery && x in s.pending && s.pending[x].authorized
    requires forall id | id in s.pending && s.pending[id].run == s.pending[x].run && s.pending[id].slot == s.pending[x].slot :: id == x
    ensures Track(s.ledger.records, true).Some?
    ensures var b := Track(s.ledger.records, true).value;
            && IsOpen(b, x) && b[x].phase == Executing && b[x].run == s.pending[x].run && b[x].key == s.pending[x].Key()
            && forall i | IsOpen(b, i) && b[i].run == b[x].run && b[i].key.slot == b[x].key.slot :: i == x
  {
    hide Inv, Steady, Track, Replay;
    EntryFacts(s, x);
    BothBooks(s);
    SteadyReplays(s.ledger.records);
    var b := Track(s.ledger.records, true).value;
    forall i: InvId | IsOpen(b, i) && b[i].run == b[x].run && b[i].key.slot == b[x].key.slot ensures i == x {
      OpenFacts(s, i);
      EntryFacts(s, i);
    }
  }

  /** The older work could proceed again once the newer grant is gone. */
  ghost predicate UsableAgain(s: Kernel, x: InvId, newer: GrantId, t: Clock)
    requires x in s.pending
  {
    var p := s.pending[x];
    && p.grant.id != newer && p.slot.cap.provider in s.registry && p.hash == s.registry[p.slot.cap.provider]
    && var check := Check(Revoking(s.broker, newer), t.wall, p.app, p.slot); !check.Denied? && check.grant.id == p.grant.id
  }

  /**
    Work prepared under one grant while the only other work of its slot executes under
    another, which would be used again: some careful calls later, the store cannot be
    restarted from.
   */
  lemma ExecutingTwinBreaks(s: Kernel, a: Attempt, t: Clock, x: InvId) returns (calls: seq<Call>)
    requires Inv(s) && Held(s) && Restartable(s) && Willing(s) && Prepare(s, a, false, t).1.WorkPrepared?
    requires var s1 := Reap(s, t.now).0;
             && x in s1.pending && SameSlot(s1.pending[x], a)
             && (forall id | id in s1.pending && SameSlot(s1.pending[id], a) :: id == x)
             && x in s1.tokens && s1.tokens[x].Authorized?
             && a.run in s1.ledger.runs
             && var check := Check(s1.broker, t.wall, s1.ledger.runs[a.run].app, a.slot);
                !check.Denied? && UsableAgain(s1, x, check.grant.id, t)
    ensures CarefulRun(Prepare(s, a, false, t).0, calls) && !Bootable(Run(Prepare(s, a, false, t).0, calls).disk)
  {
    hide Inv, Replays, Restartable, Prepare, Reap, Check, Run, CarefulRun, Now, Bootable, StillForemost, Close;
    CanReplay(s);
    ReapInv(s, t.now);
    ReapReplays(s, t.now);
    PrepareInv(s, a, false, t);
    PreparedNow(s, a, t);
    NothingDue(s, t.now);
    StillHeld(s, t.now, x);
    var s1, s' := Reap(s, t.now).0, Prepare(s, a, false, t).0;
    var check := Check(s1.broker, t.wall, s1.ledger.runs[a.run].app, a.slot);
    var p, prompted, y := Reserved(s1, a, check.grant, t), check.grant.condition == RequiresApproval, s1.nextInv;
    var r := Beginning(a.run, p.Key(), y, prompted)[0];
    EntryFacts(s1, x);
    NextIsFree(s1);
    UsableWithout(s1, x, check.grant.id, t);
    var now;
    calls, now := RevokesAndCompletes(s', s1, s1.ledger.records + [r], a, check.grant, x, y, p, t);
    TakenByRevocation(s1, now, a, x, y, p, r, PendingUnder(now, {check.grant.id}));
    NotBootable(Run(s', calls).disk);
  }

  /** On the ledger: the new work's cancellation takes the key of the work that executes. */
  lemma TakenByRevocation(s: Kernel, now: Kernel, a: Attempt, x: InvId, y: InvId, p: Pending, r: Record, due: set<InvId>)
    requires Inv(s) && Replays(s) && !s.recovery && x in s.pending && s.pending[x].authorized && SameSlot(s.pending[x], a)
    requires forall id | id in s.pending && SameSlot(s.pending[id], a) :: id == x
    requires now.pending == s.pending[y := p] && now.nextInv == y + 1 && SameSlot(p, a)
    requires due <= now.pending.Keys && y in due && x !in due
    requires r.event.ApprovalRequested? || (r.event.Invoked? && r.event.key != s.pending[x].Key())
    ensures Replay(s.ledger.records + [r] + Close(now, due) + [Record(Completed(a.run, s.pending[x].Key()), x)]).None?
  {
    hide Inv, Replays, StillForemost, Close, Replay;
    var records, key := s.ledger.records + [r], s.pending[x].Key();
    AloneInBook(s, x);
    StillSteady(s);
    AloneIsForemost(s.ledger.records, x);
    ForemostNext(s.ledger.records, r, a.run, key);
    var others := NewestLast(now, due, y);
    OthersElsewhere(s, now, a, x, y, p, due, others);
    ForemostThrough(records, others, a.run, key);
    KeyTaken(records + others, a.run, key, y, x);
    var c := Record(Cancelled(a.run, a.slot), y);
    assert records + (others + [c]) == records + others + [c];
  }

  lemma OthersElsewhere(base: Kernel, now: Kernel, a: Attempt, x: InvId, y: InvId, p: Pending, due: set<InvId>, others: seq<Record>)
    requires now.pending == base.pending[y := p] && due <= now.pending.Keys && x !in due
    requires forall id | id in base.pending && SameSlot(base.pending[id], a) :: id == x
    requires forall c | c in others :: CancelsOther(c, now.pending, due, y)
    ensures forall c | c in others :: c.event.Cancelled? && (c.event.run != a.run || c.event.slot != a.slot)
  {
    forall c | c in others ensures c.event.Cancelled? && (c.event.run != a.run || c.event.slot != a.slot) {
      var id :| id in due && id != y && c.event.run == now.pending[id].run && c.event.slot == now.pending[id].slot;
      assert id in base.pending && now.pending[id] == base.pending[id];
    }
  }

  lemma UsableWithout(s: Kernel, x: InvId, newer: GrantId, t: Clock)
    requires Inv(s) && x in s.pending && UsableAgain(s, x, newer, t) && t.now < s.pending[x].deadline
    ensures Usable(s.(broker := Revoking(s.broker, newer)), s.pending[x], t)
  {
    hide Inv, Check;
    EntryFacts(s, x);
  }
}
