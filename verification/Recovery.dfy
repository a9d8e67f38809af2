/**
  Restart: reload the stored state, check it, and close whatever the last session
  left open.
 */
module Recovery {
  import opened Basics
  import opened Domain
  import opened Ledger
  import opened ActionLog
  import opened Settlement
  import opened KernelState
  import opened Lifecycle
  import opened Provenance
  import opened KernelInvariant
  import opened ActionInvariant

  /** Every installed manifest is checked again; providers may be absent by now. */
  predicate ManifestPass(registry: Registry) {
    forall a | a in registry :: RequestsOk(registry, registry[a], true)
  }

  predicate Bootable(d: Durable) {
    Restorable(d) && Replay(d.records).Some? && ManifestPass(d.registry)
  }

  /** Invocation tags belong to one session's history and are not stored. */
  function Untag(records: seq<Record>): (rs: seq<Record>)
    ensures |rs| == |records| && forall i | 0 <= i < |rs| :: rs[i] == Record(records[i].event, 0)
  {
    seq(|records|, i requires 0 <= i < |records| => Record(records[i].event, 0))
  }

  function Stored(d: Durable): Durable {
    d.(records := Untag(d.records))
  }

  function AllActive(runs: RunIndex): set<RunId> {
    set r | r in runs && runs[r].active
  }

  /** Cancellations for all listed work, then the end of every active run. */
  function ClosingEvents(runs: RunIndex, m: Replayed, nextId: nat): seq<Record> {
    Closers(m, InOrder(m.Keys, nextId)) + Ends(InOrder(AllActive(runs), nextId), RunInterrupted)
  }

  /** The kernel as reloaded, before it closes anything. */
  function Loaded(d: Durable, script: seq<CommitOutcome>, nextId: nat): Kernel {
    Kernel(d.registry, RunLedger(Untag(d.records), RunsOf(d.records)), d.broker, d.artifacts, map[], map[], {}, map[], false,
           Stored(d), Stored(d), script, nextId, 1)
  }

  /** A kernel comes up only if the state is accepted and what was open is durably closed. */
  function Boot(d: Durable, script: seq<CommitOutcome>, nextId: nat): (Kernel, bool) {
    var s := Loaded(d, script, nextId);
    if !Bootable(d) then (s, false)
    else if AllActive(s.ledger.runs) == {} then (s, true)
    else Write(s, ClosingEvents(s.ledger.runs, Replay(d.records).value, nextId))
  }

  // ----- Tags carry no information -----

  lemma {:induction false} UntagRuns(records: seq<Record>)
    ensures RunsOf(Untag(records)) == RunsOf(records)
    ensures WellFormed(Untag(records)) <==> WellFormed(records)
    ensures Replay(Untag(records)) == Replay(records)
  {
    if records != [] {
      var n := |records| - 1;
      assert Untag(records)[..n] == Untag(records[..n]);
      UntagRuns(records[..n]);
    }
  }

  lemma {:induction false} UntagNextOther(records: seq<Record>, i: nat)
    ensures NextOther(Untag(records), i) == NextOther(records, i)
    decreases |records| - i
  {
    if i < |records| && records[i].event.Produced? {
      UntagNextOther(records, i + 1);
    }
  }

  lemma UntagProductions(records: seq<Record>)
    ensures forall i :: IsProduced(Untag(records), i) <==> IsProduced(records, i)
    ensures ProducedOnce(records) ==> ProducedOnce(Untag(records))
    ensures ProducedIds(Untag(records)) == ProducedIds(records)
  {
    var rs := Untag(records);
    assert forall i | IsProduced(records, i) :: rs[i].event == records[i].event;
    assert ProducedIds(rs) <= ProducedIds(records);
    forall a | a in ProducedIds(records) ensures a in ProducedIds(rs) {
      var i :| 0 <= i < |records| && IsProduced(records, i) && records[i].event.artifact == a;
      assert IsProduced(rs, i) && rs[i].event.artifact == a;
    }
  }

  lemma UntagBacked(d: Durable, i: nat)
    requires IsProduced(d.records, i) && Backed(d, i)
    ensures IsProduced(Stored(d).records, i) && Backed(Stored(d), i)
  {
    UntagRuns(d.records);
    UntagNextOther(d.records, i + 1);
  }

  lemma StoredRestorable(d: Durable, nextId: nat)
    requires Restorable(d) && Below(d, nextId)
    ensures Restorable(Stored(d)) && Below(Stored(d), nextId)
  {
    UntagRuns(d.records);
    UntagProductions(d.records);
    forall i: nat | IsProduced(Stored(d).records, i) ensures Backed(Stored(d), i) {
      UntagBacked(d, i);
    }
  }

  lemma {:induction false} UntaggedBook(records: seq<Record>)
    requires forall r | r in records :: r.inv == 0
    ensures Track(records, false) == Some(map[])
  {
    if records != [] {
      var n := |records| - 1;
      assert records[n] in records;
      UntaggedBook(records[..n]);
    }
  }

  // ----- What closing achieves -----

  lemma {:induction false} ClosersQuiet(runs: RunIndex, m: Replayed, order: seq<RunId>)
    requires EndedSettled(runs, m) && forall r | r in order :: r in m
    ensures Quiet(runs, Closers(m, order)) && Plain(Closers(m, order)) && forall r | r in Closers(m, order) :: r.inv == 0
  {
    if order != [] {
      ClosersQuiet(runs, m, order[1..]);
      var ks := Listing(m[order[0]]);
      assert ks != [] ==> m[order[0]] != NOTHING;
    }
  }

  /** The closing batch is admissible, ends every run, and leaves nothing listed. */
  lemma ClosingSettles(records: seq<Record>, nextId: nat)
    requires WellFormed(records) && Replay(records).Some? && forall r | r in RunsOf(records) :: r < nextId
    ensures var rs := ClosingEvents(RunsOf(records), Replay(records).value, nextId);
            && Plain(rs) && (forall r | r in rs :: r.inv == 0)
            && AppendAll(RunLedger(records, RunsOf(records)), rs).Some?
            && AllActive(AppendAll(RunLedger(records, RunsOf(records)), rs).value.runs) == {}
            && Replay(records + rs).Some? && AllSettled(Replay(records + rs).value)
  {
    var runs, m := RunsOf(records), Replay(records).value;
    var listed, active := InOrder(m.Keys, nextId), InOrder(AllActive(runs), nextId);
    EndedRunsAreSettled(records);
    ClosersQuiet(runs, m, listed);
    AppendClosing(RunLedger(records, runs), Closers(m, listed), active, RunInterrupted);
    ClosersSettle(m, listed);
    assert Elems(listed) == m.Keys;
    EndsReplay(Emptied(m, Elems(listed)), active, RunInterrupted);
    ReplayAllConcat(m, Closers(m, listed), Ends(active, RunInterrupted));
    ReplayAppendAll(records, ClosingEvents(runs, m, nextId));
  }

  // ----- The restarted kernel -----

  lemma LoadedInv(d: Durable, script: seq<CommitOutcome>, nextId: nat)
    requires Restorable(d) && Below(d, nextId)
    ensures Inv(Loaded(d, script, nextId))
  {
    hide Restorable, Below;
    StoredRestorable(d, nextId);
    UntagRuns(d.records);
    UntaggedBook(Untag(d.records));
    WellFormedWhenRestorable(Stored(d));
  }

  lemma WellFormedWhenRestorable(d: Durable)
    requires Restorable(d)
    ensures WellFormed(d.records)
  {
  }

  lemma RunsBelow(d: Durable, nextId: nat)
    requires Below(d, nextId)
    ensures forall r | r in RunsOf(d.records) :: r < nextId
  {
  }

  lemma {:induction false} UntaggedStaysOut(b: Book, rs: seq<Record>)
    requires b == map[] && forall r | r in rs :: r.inv == 0
    ensures TrackAll(b, rs, false) == Some(b)
    decreases |rs|
  {
    if rs != [] {
      UntaggedStaysOut(b, rs[1..]);
    }
  }

  /** Closing records outside any invocation, into an empty session. */
  lemma ClosingWriteInv(s: Kernel, rs: seq<Record>)
    requires Inv(s) && s.pending == map[] && s.tokens == map[] && s.nextInv == 1
    requires Plain(rs) && (forall r | r in rs :: r.inv == 0) && AppendAll(s.ledger, rs).Some?
    ensures Inv(Write(s, rs).0)
  {
    hide StateOk, Restorable, Below, HandlersOk;
    PlainKeepsState(s.ledger, Projection(s), s.nextId, rs);
    var b := Track(s.ledger.records, false).value;
    assert b == map[];
    UntaggedStaysOut(b, rs);
    TrackAppendAll(s.ledger.records, rs, false);
    WriteInv(s, rs, s.pending, s.tokens, s.nextInv);
  }

  lemma BootInv(d: Durable, script: seq<CommitOutcome>, nextId: nat)
    requires Restorable(d) && Below(d, nextId)
    ensures Inv(Boot(d, script, nextId).0)
  {
    hide Inv, Restorable, Below, Write;
    LoadedInv(d, script, nextId);
    if Bootable(d) {
      UntagRuns(d.records);
      WellFormedWhenRestorable(d);
      RunsBelow(d, nextId);
      ClosingSettles(Untag(d.records), nextId);
      ClosingWriteInv(Loaded(d, script, nextId), ClosingEvents(RunsOf(d.records), Replay(d.records).value, nextId));
    }
  }

  /** No run is active and no stored record is left unpaired. */
  predicate Quiescent(d: Durable) {
    AllActive(RunsOf(d.records)) == {} && Replay(d.records).Some? && AllSettled(Replay(d.records).value)
  }

  /**
    One restart leaves no active run and no open work, keeps the stored ledger as a
    prefix, and leaves a state the next restart accepts.
   */
  lemma RestartClosesEverything(d: Durable, script: seq<CommitOutcome>, nextId: nat)
    requires Restorable(d) && Below(d, nextId) && Boot(d, script, nextId).1
    ensures var s := Boot(d, script, nextId).0;
            && Inv(s) && !s.recovery && s.disk == Projection(s)
            && Untag(d.records) <= s.ledger.records
            && s.registry == d.registry && s.broker == d.broker && s.artifacts == d.artifacts
            && Quiescent(s.disk) && Bootable(s.disk)
  {
    hide Restorable, Below, MemoryOk;
    var s := Boot(d, script, nextId).0;
    BootInv(d, script, nextId);
    UntagRuns(d.records);
    WellFormedWhenRestorable(d);
    RunsBelow(d, nextId);
    ClosingSettles(Untag(d.records), nextId);
    SoundRuns(s);
    if AllActive(RunsOf(d.records)) == {} {
      NothingActiveIsSettled(d.records);
    }
  }

  lemma SoundRuns(s: Kernel)
    requires Inv(s)
    ensures s.ledger.runs == RunsOf(s.ledger.records)
  {
  }

  lemma NothingActiveIsSettled(records: seq<Record>)
    requires WellFormed(records) && Replay(records).Some? && AllActive(RunsOf(records)) == {}
    ensures AllSettled(Replay(records).value)
  {
    EndedRunsAreSettled(records);
    var runs := RunsOf(records);
    assert forall r | r in runs && runs[r].active :: r in AllActive(runs);
  }

  /** A second restart offers nothing to the store and appends nothing. */
  lemma SecondRestartAppendsNothing(d: Durable, script: seq<CommitOutcome>, nextId: nat, later: seq<CommitOutcome>)
    requires Restorable(d) && Below(d, nextId) && Boot(d, script, nextId).1
    ensures var s := Boot(d, script, nextId).0;
            var (s', ok) := Boot(s.disk, later, s.nextId);
            ok && Projection(s') == Projection(s) && s'.disk == s.disk && s'.script == later
  {
    hide Inv, Restorable, Below;
    RestartClosesEverything(d, script, nextId);
    var s := Boot(d, script, nextId).0;
    UntaggedAfterBoot(d, script, nextId);
    assert Untag(s.disk.records) == s.disk.records;
  }

  lemma UntaggedAfterBoot(d: Durable, script: seq<CommitOutcome>, nextId: nat)
    requires Restorable(d) && Below(d, nextId) && Boot(d, script, nextId).1
    ensures forall r | r in Boot(d, script, nextId).0.ledger.records :: r.inv == 0
  {
    hide Restorable, Below;
    UntagRuns(d.records);
    WellFormedWhenRestorable(d);
    RunsBelow(d, nextId);
    ClosingSettles(Untag(d.records), nextId);
  }
}
