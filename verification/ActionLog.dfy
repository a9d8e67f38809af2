/**
  Two readings of the action records of a ledger.

  `Track` follows each invocation by its own id through its life: requested,
  granted, executing, closed. `Replay` is what a restart can do: the stored
  records carry no invocation ids, so it pairs records up by run, capability,
  data scope and (where the record has one) grant.
 */
module ActionLog {
  import opened Basics
  import opened Domain
  import opened Ledger

  // ----- Following invocations by id -----

  datatype Phase = Requested | Granted | Executing | Closed

  datatype Item = Item(run: RunId, key: Key, phase: Phase, prompted: bool)

  type Book = map<InvId, Item>

  predicate IsOpen(b: Book, id: InvId) {
    id in b && b[id].phase != Closed
  }

  predicate OpensWork(b: Book, r: Record) {
    r.inv != 0 && r.inv !in b
  }

  /**
    One step of every invocation's protocol; `None` is a record out of order.
    With `strict` false, an unprompted invocation may be recorded as begun more
    than once.
   */
  function TrackStep(b: Book, r: Record, strict: bool): Option<Book> {
    var id, e := r.inv, r.event;
    if e.RunStarted? then Some(b)
    else if e.RunEnded? then
      if exists i | i in b :: b[i].phase != Closed && b[i].run == e.run then None else Some(b)
    else if id == 0 then Some(b)
    else if id !in b then
      match e
      case ApprovalRequested(run, key) => Some(b[id := Item(run, key, Requested, true)])
      case Invoked(run, key) => Some(b[id := Item(run, key, Executing, false)])
      case _ => None
    else
      var it := b[id];
      if it.run != e.run then None else
        match e
        case ApprovalGranted(_, key) =>
          if it.key == key && it.phase == Requested then Some(b[id := it.(phase := Granted)]) else None
        case ApprovalDenied(_, key) =>
          if it.key == key && it.phase == Requested then Some(b[id := it.(phase := Closed)]) else None
        case Invoked(_, key) =>
          if it.key == key && (it.phase == Granted || (!strict && it.phase == Executing && !it.prompted))
          then Some(b[id := it.(phase := Executing)]) else None
        case Completed(_, key) =>
          if it.key == key && it.phase == Executing then Some(b[id := it.(phase := Closed)]) else None
        case Failed(_, key) =>
          if it.key == key && it.phase == Executing then Some(b[id := it.(phase := Closed)]) else None
        case Refused(_, slot, _) =>
          if it.key.slot == slot && it.phase != Closed then Some(b[id := it.(phase := Closed)]) else None
        case Cancelled(_, slot) =>
          if it.key.slot == slot && it.phase != Closed then Some(b[id := it.(phase := Closed)]) else None
        case Produced(_, _, _) =>
          if it.phase == Executing then Some(b) else None
        case _ => None
  }

  function Track(records: seq<Record>, strict: bool): Option<Book> {
    if records == [] then Some(map[])
    else
      var before := Track(records[..|records| - 1], strict);
      if before.None? then None else TrackStep(before.value, records[|records| - 1], strict)
  }

  predicate IsTerminal(e: Event) {
    e.Completed? || e.Failed? || e.Refused? || e.Cancelled? || e.ApprovalDenied?
  }

  /** How many terminal records the invocation has. */
  function Terminals(records: seq<Record>, id: InvId): nat {
    if records == [] then 0
    else
      var last := records[|records| - 1];
      Terminals(records[..|records| - 1], id) + if last.inv == id && IsTerminal(last.event) then 1 else 0
  }

  /** The protocol allows one terminal record per invocation, and exactly closed ones have it. */
  lemma {:induction false} TerminalsMatchPhase(records: seq<Record>, id: InvId)
    requires Track(records, false).Some? && id != 0
    ensures var b := Track(records, false).value;
            Terminals(records, id) == if id in b && b[id].phase == Closed then 1 else 0
  {
    if records != [] {
      TerminalsMatchPhase(records[..|records| - 1], id);
    }
  }

  /** A prompted invocation executes only after its request and, later, its approval were recorded. */
  lemma {:induction false} ApprovedBeforeExecuting(records: seq<Record>, id: InvId)
    requires Track(records, false).Some? && id != 0
    requires var b := Track(records, false).value; id in b && b[id].prompted
    ensures var b := Track(records, false).value;
            exists i :: 0 <= i < |records| && records[i] == Record(ApprovalRequested(b[id].run, b[id].key), id)
    ensures var b := Track(records, false).value;
            b[id].phase in {Granted, Executing} ==>
              exists i, j :: 0 <= i < j < |records|
                && records[i] == Record(ApprovalRequested(b[id].run, b[id].key), id)
                && records[j] == Record(ApprovalGranted(b[id].run, b[id].key), id)
  {
    var n := |records| - 1;
    var prefix := records[..n];
    var b := Track(records, false).value;
    var b0 := Track(prefix, false).value;
    if id in b0 {
      ApprovedBeforeExecuting(prefix, id);
      var i :| 0 <= i < n && prefix[i] == Record(ApprovalRequested(b[id].run, b[id].key), id);
      assert records[i] == prefix[i];
      if b[id].phase in {Granted, Executing} {
        if b0[id].phase in {Granted, Executing} {
          var i', j' :| 0 <= i' < j' < n
            && prefix[i'] == Record(ApprovalRequested(b[id].run, b[id].key), id)
            && prefix[j'] == Record(ApprovalGranted(b[id].run, b[id].key), id);
          assert records[i'] == prefix[i'] && records[j'] == prefix[j'];
        } else {
          assert records[n] == Record(ApprovalGranted(b[id].run, b[id].key), id);
        }
      }
    } else {
      assert records[n] == Record(ApprovalRequested(b[id].run, b[id].key), id);
    }
  }

  lemma TrackAppend(records: seq<Record>, r: Record, strict: bool)
    requires Track(records, strict).Some?
    ensures Track(records + [r], strict) == TrackStep(Track(records, strict).value, r, strict)
  {
    assert (records + [r])[..|records|] == records;
  }

  /** Several records in a row. */
  function TrackAll(b: Book, rs: seq<Record>, strict: bool): Option<Book>
    decreases |rs|
  {
    if rs == [] then Some(b)
    else
      var next := TrackStep(b, rs[0], strict);
      if next.None? then None else TrackAll(next.value, rs[1..], strict)
  }

  lemma {:induction false} TrackAppendAll(records: seq<Record>, rs: seq<Record>, strict: bool)
    requires Track(records, strict).Some?
    ensures TrackAll(Track(records, strict).value, rs, strict).Some? ==>
              Track(records + rs, strict) == TrackAll(Track(records, strict).value, rs, strict)
    decreases |rs|
  {
    if rs == [] {
      assert records + rs == records;
    } else if TrackStep(Track(records, strict).value, rs[0], strict).Some? {
      TrackAppend(records, rs[0], strict);
      TrackAppendAll(records + [rs[0]], rs[1..], strict);
      assert records + [rs[0]] + rs[1..] == records + rs;
    }
  }

  lemma {:induction false} TrackAllConcat(b: Book, x: seq<Record>, y: seq<Record>, strict: bool)
    requires TrackAll(b, x, strict).Some?
    ensures TrackAll(b, x + y, strict) == TrackAll(TrackAll(b, x, strict).value, y, strict)
    decreases |x|
  {
    if x == [] {
      assert x + y == y;
    } else {
      assert (x + y)[1..] == x[1..] + y;
      TrackAllConcat(TrackStep(b, x[0], strict).value, x[1..], y, strict);
    }
  }

  function CloseIds(b: Book, ids: set<InvId>): Book {
    map id | id in b :: if id in ids then b[id].(phase := Closed) else b[id]
  }

  /** Cancelling distinct open invocations closes exactly those. */
  lemma {:induction false} TrackCancellations(b: Book, rs: seq<Record>, ids: seq<InvId>, strict: bool)
    requires |rs| == |ids| && Distinct(ids) && 0 !in ids
    requires forall i | 0 <= i < |ids| ::
               IsOpen(b, ids[i]) && rs[i] == Record(Cancelled(b[ids[i]].run, b[ids[i]].key.slot), ids[i])
    ensures TrackAll(b, rs, strict) == Some(CloseIds(b, Elems(ids)))
    decreases |ids|
  {
    if ids == [] {
      assert CloseIds(b, Elems(ids)) == b;
    } else {
      var b1 := b[ids[0] := b[ids[0]].(phase := Closed)];
      assert TrackStep(b, rs[0], strict) == Some(b1);
      TrackCancellations(b1, rs[1..], ids[1..], strict);
      assert ids == [ids[0]] + ids[1..];
      assert CloseIds(b1, Elems(ids[1..])) == CloseIds(b, Elems(ids));
    }
  }

  lemma {:induction false} TrackEnds(b: Book, runs: seq<RunId>, how: RunEnd, strict: bool)
    requires forall id | IsOpen(b, id) :: b[id].run !in runs
    ensures TrackAll(b, Ends(runs, how), strict) == Some(b)
    decreases |runs|
  {
    if runs != [] {
      assert Ends(runs, how)[1..] == Ends(runs[1..], how);
      TrackEnds(b, runs[1..], how, strict);
    }
  }

  // ----- Pairing records up without ids -----

  datatype Outstanding = Outstanding(requested: seq<Key>, granted: seq<Key>, executing: seq<Key>) {
    predicate IsEmpty() {
      requested == [] && granted == [] && executing == []
    }
  }

  type Replayed = map<RunId, Outstanding>

  const NOTHING := Outstanding([], [], [])

  function At(m: Replayed, run: RunId): Outstanding {
    if run in m then m[run] else NOTHING
  }

  function Count(s: seq<Key>, k: Key): nat {
    multiset(s)[k]
  }

  function FirstIndex(s: seq<Key>, k: Key): (i: nat)
    requires k in s
    ensures i < |s| && s[i] == k && k !in s[..i]
  {
    if s[0] == k then 0 else 1 + FirstIndex(s[1..], k)
  }

  /** Drop the first occurrence. */
  function Without(s: seq<Key>, k: Key): (t: seq<Key>)
    requires k in s
    ensures forall x :: Count(t, x) == Count(s, x) - if x == k then 1 else 0
  {
    var i := FirstIndex(s, k);
    assert s == s[..i] + [k] + s[i + 1..];
    s[..i] + s[i + 1..]
  }

  /** The first key of a capability and data scope, whatever its grant. */
  function FindSlot(s: seq<Key>, slot: Slot): (k: Option<Key>)
    ensures k.Some? ==> k.value in s && k.value.slot == slot
    ensures k.None? ==> forall x | x in s :: x.slot != slot
  {
    if s == [] then None else if s[0].slot == slot then Some(s[0]) else FindSlot(s[1..], slot)
  }

  /** A cancellation closes executing work first, then a granted and then a requested approval. */
  function CloseSlot(o: Outstanding, slot: Slot): Option<Outstanding> {
    var e, g, q := FindSlot(o.executing, slot), FindSlot(o.granted, slot), FindSlot(o.requested, slot);
    if e.Some? then Some(o.(executing := Without(o.executing, e.value)))
    else if g.Some? then Some(o.(granted := Without(o.granted, g.value)))
    else if q.Some? then Some(o.(requested := Without(o.requested, q.value)))
    else None
  }

  function ReplayEvent(o: Outstanding, e: Event): Option<Outstanding> {
    match e
    case RunStarted(_, _, _) => Some(o)
    case Produced(_, _, _) => Some(o)
    case ApprovalRequested(_, k) => Some(o.(requested := o.requested + [k]))
    case ApprovalGranted(_, k) =>
      if k in o.requested
      then Some(o.(requested := Without(o.requested, k), granted := o.granted + [k])) else None
    case ApprovalDenied(_, k) =>
      if k in o.requested then Some(o.(requested := Without(o.requested, k))) else None
    case Invoked(_, k) =>
      Some(o.(granted := if k in o.granted then Without(o.granted, k) else o.granted,
              executing := o.executing + [k]))
    case Completed(_, k) =>
      if k in o.executing then Some(o.(executing := Without(o.executing, k))) else None
    case Failed(_, k) =>
      if k in o.executing then Some(o.(executing := Without(o.executing, k))) else None
    case Cancelled(_, slot) => CloseSlot(o, slot)
    // A refusal may be the whole story of an attempt, or close work whose grant disappeared.
    case Refused(_, slot, _) => if CloseSlot(o, slot).Some? then CloseSlot(o, slot) else Some(o)
    case RunEnded(_, _) => if o.IsEmpty() then Some(o) else None
  }

  function ReplayStep(m: Replayed, e: Event): Option<Replayed> {
    var o := ReplayEvent(At(m, e.run), e);
    if o.None? then None else Some(m[e.run := o.value])
  }

  function Replay(records: seq<Record>): Option<Replayed> {
    if records == [] then Some(map[])
    else
      var before := Replay(records[..|records| - 1]);
      if before.None? then None else ReplayStep(before.value, records[|records| - 1].event)
  }

  /** The restart's pass over the stored records. */
  method ReplayActionState(records: seq<Record>) returns (result: Option<Replayed>)
    ensures result == Replay(records)
  {
    var byRun: Replayed := map[];
    for i := 0 to |records|
      invariant Replay(records[..i]) == Some(byRun)
    {
      assert records[..i + 1][..i] == records[..i];
      var e := records[i].event;
      var actions := if e.run in byRun then byRun[e.run] else NOTHING;
      var next := ReplayEvent(actions, e);
      if next.None? {
        ReplayPrefix(records, i + 1);
        return None;
      }
      byRun := byRun[e.run := next.value];
    }
    assert records[..|records|] == records;
    return Some(byRun);
  }

  lemma {:induction false} ReplayPrefix(records: seq<Record>, n: nat)
    requires n <= |records| && Replay(records[..n]).None?
    ensures Replay(records).None?
    decreases |records|
  {
    if n == |records| {
      assert records[..n] == records;
    } else {
      assert records[..|records| - 1][..n] == records[..n];
      ReplayPrefix(records[..|records| - 1], n);
    }
  }

  lemma ReplayAppend(records: seq<Record>, r: Record)
    requires Replay(records).Some?
    ensures Replay(records + [r]) == ReplayStep(Replay(records).value, r.event)
  {
    assert (records + [r])[..|records|] == records;
  }
}
