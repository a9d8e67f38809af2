/**
  The run ledger: an append-only list of records with an index of runs.
 */
module Ledger {
  import opened Basics
  import opened Domain

  datatype RunInfo = RunInfo(app: AppId, active: bool)

  type RunIndex = map<RunId, RunInfo>

  datatype RunLedger = RunLedger(records: seq<Record>, runs: RunIndex)

  const EMPTY_LEDGER := RunLedger([], map[])

  predicate Active(runs: RunIndex, r: RunId) {
    r in runs && runs[r].active
  }

  /** A run id is started once; every other event needs an active run. */
  predicate CanAppend(runs: RunIndex, e: Event) {
    if e.RunStarted? then e.run !in runs else Active(runs, e.run)
  }

  function IndexEvent(runs: RunIndex, e: Event): RunIndex {
    match e
    case RunStarted(r, app, _) => runs[r := RunInfo(app, true)]
    case RunEnded(r, _) => if r in runs then runs[r := runs[r].(active := false)] else runs
    case _ => runs
  }

  function Append(l: RunLedger, r: Record): RunLedger {
    RunLedger(l.records + [r], IndexEvent(l.runs, r.event))
  }

  /** Append one by one; the first inadmissible event rejects the whole list. */
  function AppendAll(l: RunLedger, rs: seq<Record>): (result: Option<RunLedger>)
    ensures result.Some? ==> result.value.records == l.records + rs
    decreases |rs|
  {
    if rs == [] then Some(l)
    else if CanAppend(l.runs, rs[0].event) then AppendAll(Append(l, rs[0]), rs[1..])
    else None
  }

  /**
    The batch append of the ledger: run states touched by the batch are staged in
    a second index that shadows the ledger's own, and nothing becomes visible
    unless every event was admissible.
   */
  method AppendBatch(l: RunLedger, events: seq<Record>) returns (result: Option<RunLedger>)
    ensures result == AppendAll(l, events)
  {
    var staged: RunIndex := map[];
    var records: seq<Record> := [];
    assert l == RunLedger(l.records + records, l.runs + staged) && events[0..] == events;
    for i := 0 to |events|
      invariant records == events[..i]
      invariant AppendAll(RunLedger(l.records + records, l.runs + staged), events[i..]) == AppendAll(l, events)
    {
      var e := events[i].event;
      ghost var before := l.runs + staged;
      assert events[i..][0] == events[i] && events[i..][1..] == events[i + 1..];
      if !CanAppend(if e.run in staged then staged else l.runs, e) {
        return None;
      }
      if e.run !in staged && e.run in l.runs {
        staged := staged[e.run := l.runs[e.run]];
      }
      assert l.runs + staged == before;
      staged := IndexEvent(staged, e);
      assert l.runs + staged == IndexEvent(before, e);
      assert l.records + (records + [events[i]]) == (l.records + records) + [events[i]];
      records := records + [events[i]];
    }
    assert events[|events|..] == [];
    return Some(RunLedger(l.records + records, l.runs + staged));
  }

  // ----- What a restored ledger must look like -----

  function RunsOf(records: seq<Record>): RunIndex {
    if records == [] then map[]
    else IndexEvent(RunsOf(records[..|records| - 1]), records[|records| - 1].event)
  }

  /** A child run starts under an active parent of the same app. */
  predicate ParentOk(runs: RunIndex, e: Event) {
    e.RunStarted? && e.parent.Some? ==>
      Active(runs, e.parent.value) && runs[e.parent.value].app == e.app
  }

  /** The record-by-record checks of restoring a ledger. */
  predicate WellFormed(records: seq<Record>) {
    records == [] ||
    (var prefix := records[..|records| - 1];
     var e := records[|records| - 1].event;
     WellFormed(prefix) && CanAppend(RunsOf(prefix), e) && ParentOk(RunsOf(prefix), e))
  }

  predicate Sound(l: RunLedger) {
    WellFormed(l.records) && l.runs == RunsOf(l.records)
  }

  lemma AppendSound(l: RunLedger, r: Record)
    requires Sound(l) && CanAppend(l.runs, r.event) && ParentOk(l.runs, r.event)
    ensures Sound(Append(l, r))
  {
    assert (l.records + [r])[..|l.records|] == l.records;
  }

  lemma {:induction false} AppendAllSound(l: RunLedger, rs: seq<Record>)
    requires Sound(l) && AppendAll(l, rs).Some?
    requires forall r | r in rs :: !r.event.RunStarted?
    ensures Sound(AppendAll(l, rs).value)
    decreases |rs|
  {
    if rs != [] {
      AppendSound(l, rs[0]);
      AppendAllSound(Append(l, rs[0]), rs[1..]);
    }
  }

  lemma {:induction false} AppendAllConcat(l: RunLedger, a: seq<Record>, b: seq<Record>)
    requires AppendAll(l, a).Some?
    ensures AppendAll(l, a + b) == AppendAll(AppendAll(l, a).value, b)
    decreases |a|
  {
    if a == [] {
      assert a + b == b;
    } else {
      assert (a + b)[1..] == a[1..] + b;
      AppendAllConcat(Append(l, a[0]), a[1..], b);
    }
  }

  // ----- Closing batches: records of active runs, then run ends -----

  predicate Quiet(runs: RunIndex, rs: seq<Record>) {
    forall r | r in rs :: !r.event.RunStarted? && !r.event.RunEnded? && Active(runs, r.event.run)
  }

  lemma {:induction false} AppendQuiet(l: RunLedger, rs: seq<Record>)
    requires Quiet(l.runs, rs)
    ensures AppendAll(l, rs) == Some(RunLedger(l.records + rs, l.runs))
    decreases |rs|
  {
    if rs == [] {
      assert l.records + rs == l.records;
    } else {
      AppendQuiet(Append(l, rs[0]), rs[1..]);
      assert l.records + [rs[0]] + rs[1..] == l.records + rs;
    }
  }

  function Ends(ids: seq<RunId>, how: RunEnd): (rs: seq<Record>)
    ensures |rs| == |ids|
    ensures forall i | 0 <= i < |ids| :: rs[i] == Record(RunEnded(ids[i], how), 0)
  {
    seq(|ids|, i requires 0 <= i < |ids| => Record(RunEnded(ids[i], how), 0))
  }

  function Deactivate(runs: RunIndex, ended: set<RunId>): RunIndex {
    map r | r in runs :: if r in ended then runs[r].(active := false) else runs[r]
  }

  function Elems<T>(s: seq<T>): set<T> {
    set x | x in s
  }

  lemma DeactivateHead(runs: RunIndex, ids: seq<RunId>, how: RunEnd)
    requires ids != []
    ensures Deactivate(IndexEvent(runs, RunEnded(ids[0], how)), Elems(ids[1..])) == Deactivate(runs, Elems(ids))
  {
    assert ids == [ids[0]] + ids[1..];
    assert Elems(ids) == {ids[0]} + Elems(ids[1..]);
  }

  lemma {:induction false} AppendEnds(l: RunLedger, ids: seq<RunId>, how: RunEnd)
    requires Distinct(ids) && forall r | r in ids :: Active(l.runs, r)
    ensures AppendAll(l, Ends(ids, how)) ==
            Some(RunLedger(l.records + Ends(ids, how), Deactivate(l.runs, Elems(ids))))
    decreases |ids|
  {
    var rs := Ends(ids, how);
    if ids == [] {
      assert l.records + rs == l.records;
      assert Deactivate(l.runs, Elems(ids)) == l.runs;
    } else {
      var l1 := Append(l, rs[0]);
      assert rs[1..] == Ends(ids[1..], how);
      forall r | r in ids[1..] ensures Active(l1.runs, r) {
        assert r in ids && r != ids[0];
      }
      DeactivateHead(l.runs, ids, how);
      AppendEnds(l1, ids[1..], how);
      assert l.records + [rs[0]] + rs[1..] == l.records + rs;
    }
  }

  /** Cancelling open work and then ending runs is always admissible as one batch. */
  lemma AppendClosing(l: RunLedger, quiet: seq<Record>, ids: seq<RunId>, how: RunEnd)
    requires Quiet(l.runs, quiet)
    requires Distinct(ids) && forall r | r in ids :: Active(l.runs, r)
    ensures AppendAll(l, quiet + Ends(ids, how)) ==
            Some(RunLedger(l.records + (quiet + Ends(ids, how)), Deactivate(l.runs, Elems(ids))))
  {
    AppendQuiet(l, quiet);
    AppendAllConcat(l, quiet, Ends(ids, how));
    AppendEnds(RunLedger(l.records + quiet, l.runs), ids, how);
    assert l.records + quiet + Ends(ids, how) == l.records + (quiet + Ends(ids, how));
  }
}
