/**
  How a restart settles open work: it cancels every key the replay still lists,
  knowing only capability and data scope of each. One cancellation per listed key
  empties the lists, whichever key each cancellation happens to hit.
 */
module Settlement {
  import opened Basics
  import opened Domain
  import opened Ledger
  import opened ActionLog

  // ----- Replaying several records -----

  function ReplayAll(m: Replayed, rs: seq<Record>): Option<Replayed>
    decreases |rs|
  {
    if rs == [] then Some(m)
    else
      var next := ReplayStep(m, rs[0].event);
      if next.None? then None else ReplayAll(next.value, rs[1..])
  }

  lemma {:induction false} ReplayAppendAll(records: seq<Record>, rs: seq<Record>)
    requires Replay(records).Some? && ReplayAll(Replay(records).value, rs).Some?
    ensures Replay(records + rs) == ReplayAll(Replay(records).value, rs)
    decreases |rs|
  {
    if rs == [] {
      assert records + rs == records;
    } else {
      ReplayAppend(records, rs[0]);
      ReplayAppendAll(records + [rs[0]], rs[1..]);
      assert records + [rs[0]] + rs[1..] == records + rs;
    }
  }

  lemma {:induction false} ReplayAllConcat(m: Replayed, x: seq<Record>, y: seq<Record>)
    requires ReplayAll(m, x).Some?
    ensures ReplayAll(m, x + y) == ReplayAll(ReplayAll(m, x).value, y)
    decreases |x|
  {
    if x == [] {
      assert x + y == y;
    } else {
      assert (x + y)[1..] == x[1..] + y;
      ReplayAllConcat(ReplayStep(m, x[0].event).value, x[1..], y);
    }
  }

  // ----- Weighing lists by capability and data scope -----

  function CountSlot(ks: seq<Key>, slot: Slot): nat {
    if ks == [] then 0 else (if ks[0].slot == slot then 1 else 0) + CountSlot(ks[1..], slot)
  }

  lemma {:induction false} CountSlotConcat(a: seq<Key>, b: seq<Key>, slot: Slot)
    ensures CountSlot(a + b, slot) == CountSlot(a, slot) + CountSlot(b, slot)
  {
    if a == [] {
      assert a + b == b;
    } else {
      assert (a + b)[1..] == a[1..] + b;
      CountSlotConcat(a[1..], b, slot);
    }
  }

  lemma CountSlotWithout(ks: seq<Key>, k: Key, slot: Slot)
    requires k in ks
    ensures CountSlot(ks, slot) == CountSlot(Without(ks, k), slot) + if k.slot == slot then 1 else 0
  {
    var i := FirstIndex(ks, k);
    CountSlotConcat(ks[..i], ks[i + 1..], slot);
    CountSlotConcat(ks[..i], ks[i..], slot);
    assert ks == ks[..i] + ks[i..] && ks[i..][1..] == ks[i + 1..];
  }

  lemma {:induction false} CountSlotFound(ks: seq<Key>, slot: Slot)
    ensures FindSlot(ks, slot).Some? <==> CountSlot(ks, slot) > 0
  {
    if ks != [] {
      CountSlotFound(ks[1..], slot);
    }
  }

  function Weight(o: Outstanding, slot: Slot): nat {
    CountSlot(o.requested, slot) + CountSlot(o.granted, slot) + CountSlot(o.executing, slot)
  }

  /** A cancellation takes exactly one key of its slot, if there is one. */
  lemma CloseSlotWeight(o: Outstanding, slot: Slot, x: Slot)
    ensures CloseSlot(o, slot).Some? <==> Weight(o, slot) > 0
    ensures CloseSlot(o, slot).Some? ==>
              Weight(o, x) == Weight(CloseSlot(o, slot).value, x) + if x == slot then 1 else 0
  {
    CountSlotFound(o.executing, slot);
    CountSlotFound(o.granted, slot);
    CountSlotFound(o.requested, slot);
    var e, g, q := FindSlot(o.executing, slot), FindSlot(o.granted, slot), FindSlot(o.requested, slot);
    if e.Some? {
      CountSlotWithout(o.executing, e.value, x);
    } else if g.Some? {
      CountSlotWithout(o.granted, g.value, x);
    } else if q.Some? {
      CountSlotWithout(o.requested, q.value, x);
    }
  }

  lemma ListedWeighs(o: Outstanding) returns (x: Slot)
    requires o != NOTHING
    ensures Weight(o, x) > 0
  {
    x := (if o.requested != [] then o.requested[0] else if o.granted != [] then o.granted[0] else o.executing[0]).slot;
  }

  // ----- Cancelling everything that is listed -----

  function Listing(o: Outstanding): seq<Key> {
    o.requested + o.granted + o.executing
  }

  function CancelKeys(run: RunId, ks: seq<Key>): (rs: seq<Record>)
    ensures |rs| == |ks|
    ensures forall i | 0 <= i < |ks| :: rs[i] == Record(Cancelled(run, ks[i].slot), 0)
  {
    seq(|ks|, i requires 0 <= i < |ks| => Record(Cancelled(run, ks[i].slot), 0))
  }

  /** The lists weigh what the keys still to be cancelled weigh. */
  ghost predicate Balanced(o: Outstanding, ks: seq<Key>) {
    forall x :: Weight(o, x) == CountSlot(ks, x)
  }

  lemma {:induction false} CancelKeysEmpties(m: Replayed, run: RunId, ks: seq<Key>)
    requires run in m && Balanced(m[run], ks)
    ensures ReplayAll(m, CancelKeys(run, ks)) == Some(m[run := NOTHING])
    decreases |ks|
  {
    if ks == [] {
      if m[run] != NOTHING {
        var x := ListedWeighs(m[run]);
      }
      assert CancelKeys(run, ks) == [] && m[run := NOTHING] == m;
    } else {
      var slot := ks[0].slot;
      assert Weight(m[run], slot) == CountSlot(ks, slot);
      CloseSlotWeight(m[run], slot, slot);
      var o := CloseSlot(m[run], slot).value;
      forall x ensures Weight(o, x) == CountSlot(ks[1..], x) {
        assert Weight(m[run], x) == CountSlot(ks, x);
        CloseSlotWeight(m[run], slot, x);
      }
      assert CancelKeys(run, ks)[1..] == CancelKeys(run, ks[1..]);
      CancelKeysEmpties(m[run := o], run, ks[1..]);
      assert m[run := o][run := NOTHING] == m[run := NOTHING];
    }
  }

  lemma ListingBalanced(o: Outstanding)
    ensures Balanced(o, Listing(o))
  {
    forall x ensures Weight(o, x) == CountSlot(Listing(o), x) {
      CountSlotConcat(o.requested + o.granted, o.executing, x);
      CountSlotConcat(o.requested, o.granted, x);
    }
  }

  /** The cancellations a restart writes: run by run, requested, granted, then executing. */
  function Closers(m: Replayed, runs: seq<RunId>): seq<Record>
    requires forall r | r in runs :: r in m
  {
    if runs == [] then [] else CancelKeys(runs[0], Listing(m[runs[0]])) + Closers(m, runs[1..])
  }

  lemma {:induction false} ClosersElsewhere(m: Replayed, runs: seq<RunId>, run: RunId, o: Outstanding)
    requires (forall r | r in runs :: r in m) && run !in runs
    ensures Closers(m[run := o], runs) == Closers(m, runs)
  {
    if runs != [] {
      ClosersElsewhere(m, runs[1..], run, o);
    }
  }

  function Emptied(m: Replayed, runs: set<RunId>): Replayed {
    map r | r in m :: if r in runs then NOTHING else m[r]
  }

  lemma EmptiedHead(m: Replayed, runs: seq<RunId>)
    requires runs != [] && runs[0] in m
    ensures Emptied(m[runs[0] := NOTHING], Elems(runs[1..])) == Emptied(m, Elems(runs))
  {
    assert runs == [runs[0]] + runs[1..];
    assert Elems(runs) == {runs[0]} + Elems(runs[1..]);
  }

  lemma {:induction false} ClosersSettle(m: Replayed, runs: seq<RunId>)
    requires Distinct(runs) && forall r | r in runs :: r in m
    ensures ReplayAll(m, Closers(m, runs)) == Some(Emptied(m, Elems(runs)))
    decreases |runs|
  {
    if runs == [] {
      assert Emptied(m, Elems(runs)) == m;
    } else {
      hide ReplayAll, CancelKeys, Listing, Emptied;
      var run := runs[0];
      var m1 := m[run := NOTHING];
      ListingBalanced(m[run]);
      CancelKeysEmpties(m, run, Listing(m[run]));
      ClosersElsewhere(m, runs[1..], run, NOTHING);
      ReplayAllConcat(m, CancelKeys(run, Listing(m[run])), Closers(m, runs[1..]));
      ClosersSettle(m1, runs[1..]);
      EmptiedHead(m, runs);
    }
  }

  predicate AllSettled(m: Replayed) {
    forall r | r in m :: m[r] == NOTHING
  }

  lemma {:induction false} EndsReplay(m: Replayed, runs: seq<RunId>, how: RunEnd)
    requires AllSettled(m)
    ensures ReplayAll(m, Ends(runs, how)).Some? && AllSettled(ReplayAll(m, Ends(runs, how)).value)
    decreases |runs|
  {
    if runs != [] {
      assert Ends(runs, how)[1..] == Ends(runs[1..], how);
      EndsReplay(m[runs[0] := NOTHING], runs[1..], how);
    }
  }

  // ----- Whose work is listed -----

  /** Every listed run exists, and an ended run lists nothing: no ended run has open work. */
  predicate EndedSettled(runs: RunIndex, m: Replayed) {
    forall r | r in m :: r in runs && (m[r] == NOTHING || runs[r].active)
  }

  lemma {:induction false} EndedRunsAreSettled(records: seq<Record>)
    requires WellFormed(records) && Replay(records).Some?
    ensures EndedSettled(RunsOf(records), Replay(records).value)
  {
    if records != [] {
      EndedRunsAreSettled(records[..|records| - 1]);
    }
  }
}
