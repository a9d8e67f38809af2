/**
  When can a restart pair the stored records up again? `Agree` says that pairing
  by key has found exactly the work that following ids finds. The main theorem
  (`ReplaysForeverIffSlotsSafe`) gives the exact condition on the open work under
  which every way of finishing it can be paired up.
 */
module ReplayAgreement {
  import opened Basics
  import opened Domain
  import opened ActionLog

  function ListOf(o: Outstanding, ph: Phase): seq<Key>
    requires ph != Closed
  {
    match ph
    case Requested => o.requested
    case Granted => o.granted
    case Executing => o.executing
  }

  predicate Matches(it: Item, run: RunId, ph: Phase, key: Key) {
    it.run == run && it.phase == ph && it.key == key
  }

  function Holders(b: Book, run: RunId, ph: Phase, key: Key): (ids: set<InvId>)
    ensures forall id :: id in ids <==> id in b && Matches(b[id], run, ph, key)
  {
    set id | id in b && Matches(b[id], run, ph, key)
  }

  function Tally(b: Book, run: RunId, ph: Phase, key: Key): nat {
    |Holders(b, run, ph, key)|
  }

  ghost predicate Agree(m: Replayed, b: Book) {
    forall run: RunId, ph: Phase, key: Key | ph != Closed :: AgreeAt(m, b, run, ph, key)
  }

  /** Open invocations of one run, capability and data scope. */
  predicate Twins(b: Book, i: InvId, j: InvId) {
    i != j && IsOpen(b, i) && IsOpen(b, j) && b[i].run == b[j].run && b[i].key.slot == b[j].key.slot
  }

  /** Whenever two open invocations share run, capability and data scope, both execute under one grant. */
  predicate SlotsSafe(b: Book) {
    forall i, j | i in b && j in b && Twins(b, i, j) ::
      b[i].phase == Executing && b[j].phase == Executing && b[i].key == b[j].key
  }

  predicate SlotFree(b: Book, run: RunId, slot: Slot) {
    forall i | i in b && IsOpen(b, i) :: b[i].run != run || b[i].key.slot != slot
  }

  /** Beginning this work keeps the slots safe. */
  predicate SafeToOpen(b: Book, e: Event) {
    match e
    case ApprovalRequested(run, key) => SlotFree(b, run, key.slot)
    case Invoked(run, key) =>
      forall i | i in b && IsOpen(b, i) && b[i].run == run && b[i].key.slot == key.slot ::
        b[i].phase == Executing && b[i].key == key
    case _ => true
  }

  // ----- Counting -----

  lemma TallyUpdate(b: Book, id: InvId, it: Item, run: RunId, ph: Phase, key: Key)
    ensures Tally(b[id := it], run, ph, key) + (if id in b && Matches(b[id], run, ph, key) then 1 else 0)
            == Tally(b, run, ph, key) + (if Matches(it, run, ph, key) then 1 else 0)
  {
    var before, after := Holders(b, run, ph, key), Holders(b[id := it], run, ph, key);
    assert after - {id} == before - {id};
    assert |after| == |after - {id}| + if id in after then 1 else 0;
    assert |before| == |before - {id}| + if id in before then 1 else 0;
  }

  lemma TallyWitness(b: Book, id: InvId)
    requires id in b
    ensures Tally(b, b[id].run, b[id].phase, b[id].key) > 0
  {
    assert id in Holders(b, b[id].run, b[id].phase, b[id].key);
  }

  lemma TallyMember(b: Book, run: RunId, ph: Phase, key: Key) returns (id: InvId)
    requires Tally(b, run, ph, key) > 0
    ensures id in b && Matches(b[id], run, ph, key)
  {
    id :| id in Holders(b, run, ph, key);
  }

  function One(present: bool): nat {
    if present then 1 else 0
  }

  /** The list lost (`out`) or gained (`in_`) one occurrence of the key. */
  ghost predicate Shifted(after: seq<Key>, before: seq<Key>, key: Key, out: bool, in_: bool) {
    forall x :: Count(after, x) + One(out && x == key) == Count(before, x) + One(in_ && x == key)
  }

  /** `o` lists what was outstanding before, with one key moved from phase `from` to phase `to`. */
  ghost predicate Moved(o: Outstanding, before: Outstanding, key: Key, from: Phase, to: Phase) {
    && Shifted(o.requested, before.requested, key, from == Requested, to == Requested)
    && Shifted(o.granted, before.granted, key, from == Granted, to == Granted)
    && Shifted(o.executing, before.executing, key, from == Executing, to == Executing)
  }

  /** Work that is not recorded yet counts as closed. */
  function PhaseOf(b: Book, id: InvId): Phase {
    if id in b then b[id].phase else Closed
  }

  ghost predicate AgreeAt(m: Replayed, b: Book, run: RunId, ph: Phase, key: Key)
    requires ph != Closed
  {
    Count(ListOf(At(m, run), ph), key) == Tally(b, run, ph, key)
  }

  lemma AgreeAtAfter(m: Replayed, b: Book, id: InvId, it: Item, o: Outstanding, run: RunId, ph: Phase, key: Key)
    requires ph != Closed && AgreeAt(m, b, run, ph, key)
    requires id in b ==> b[id].run == it.run && b[id].key == it.key
    requires Moved(o, At(m, it.run), it.key, PhaseOf(b, id), it.phase)
    ensures AgreeAt(m[it.run := o], b[id := it], run, ph, key)
  {
    TallyUpdate(b, id, it, run, ph, key);
    if run == it.run {
      assert Shifted(ListOf(o, ph), ListOf(At(m, run), ph), it.key, PhaseOf(b, id) == ph, it.phase == ph);
    } else {
      assert At(m[it.run := o], run) == At(m, run);
    }
  }

  lemma AgreeAfter(m: Replayed, b: Book, id: InvId, it: Item, o: Outstanding)
    requires Agree(m, b) && (id in b ==> b[id].run == it.run && b[id].key == it.key)
    requires Moved(o, At(m, it.run), it.key, PhaseOf(b, id), it.phase)
    ensures Agree(m[it.run := o], b[id := it])
  {
    var m', b' := m[it.run := o], b[id := it];
    forall run: RunId, ph: Phase, key: Key | ph != Closed ensures AgreeAt(m', b', run, ph, key) {
      assert AgreeAt(m, b, run, ph, key);
      AgreeAtAfter(m, b, id, it, o, run, ph, key);
    }
  }

  /** An open invocation is found in the list of its phase. */
  lemma AgreeListed(m: Replayed, b: Book, id: InvId)
    requires Agree(m, b) && IsOpen(b, id)
    ensures b[id].key in ListOf(At(m, b[id].run), b[id].phase)
  {
    TallyWitness(b, id);
    assert AgreeAt(m, b, b[id].run, b[id].phase, b[id].key);
  }

  /** Conversely, a listed key belongs to an open invocation. */
  lemma AgreeOwner(m: Replayed, b: Book, run: RunId, ph: Phase, key: Key) returns (id: InvId)
    requires Agree(m, b) && ph != Closed && key in ListOf(At(m, run), ph)
    ensures id in b && Matches(b[id], run, ph, key)
  {
    assert AgreeAt(m, b, run, ph, key);
    id := TallyMember(b, run, ph, key);
  }

  // ----- One record -----

  /** Take a key out of the list of its phase. */
  function TakeOut(o: Outstanding, ph: Phase, key: Key): Outstanding
    requires ph != Closed && key in ListOf(o, ph)
  {
    match ph
    case Requested => o.(requested := Without(o.requested, key))
    case Granted => o.(granted := Without(o.granted, key))
    case Executing => o.(executing := Without(o.executing, key))
  }

  lemma MovedOut(o: Outstanding, ph: Phase, key: Key)
    requires ph != Closed && key in ListOf(o, ph)
    ensures Moved(TakeOut(o, ph, key), o, key, ph, Closed)
  {
  }

  lemma MovedOn(o: Outstanding, key: Key)
    ensures key in o.requested ==>
              Moved(Outstanding(Without(o.requested, key), o.granted + [key], o.executing), o, key, Requested, Granted)
    ensures key in o.granted ==>
              Moved(Outstanding(o.requested, Without(o.granted, key), o.executing + [key]), o, key, Granted, Executing)
  {
  }

  lemma MovedIn(o: Outstanding, key: Key)
    ensures Moved(o.(requested := o.requested + [key]), o, key, Closed, Requested)
    ensures Moved(o.(executing := o.executing + [key]), o, key, Closed, Executing)
  {
  }

  /** Records that name their grant close or move exactly their own work. */
  lemma AgreeExact(m: Replayed, b: Book, r: Record)
    requires Agree(m, b) && r.inv in b && r.inv != 0 && TrackStep(b, r, true).Some?
    requires !r.event.Refused? && !r.event.Cancelled? && !r.event.RunStarted? && !r.event.RunEnded?
    ensures ReplayStep(m, r.event).Some? && Agree(ReplayStep(m, r.event).value, TrackStep(b, r, true).value)
  {
    AgreeListed(m, b, r.inv);
    var it := b[r.inv];
    var o := At(m, it.run);
    MovedOut(o, it.phase, it.key);
    if r.event.ApprovalGranted? || r.event.Invoked? {
      MovedOn(o, it.key);
      var it' := it.(phase := if r.event.Invoked? then Executing else Granted);
      AgreeAfter(m, b, r.inv, it', ReplayEvent(o, r.event).value);
    } else if r.event.Produced? {
      AgreeSame(m, b, it.run);
    } else {
      assert ReplayEvent(o, r.event) == Some(TakeOut(o, it.phase, it.key));
      AgreeAfter(m, b, r.inv, it.(phase := Closed), TakeOut(o, it.phase, it.key));
    }
  }

  /** In safe slots a cancellation or refusal closes the right key although it does not name it. */
  lemma AgreeClose(m: Replayed, b: Book, r: Record)
    requires Agree(m, b) && SlotsSafe(b) && IsOpen(b, r.inv) && r.inv != 0 && TrackStep(b, r, true).Some?
    requires r.event.Refused? || r.event.Cancelled?
    ensures ReplayStep(m, r.event).Some? && Agree(ReplayStep(m, r.event).value, TrackStep(b, r, true).value)
  {
    var it := b[r.inv];
    var o := At(m, it.run);
    ClosesOwnKey(m, b, r.inv);
    MovedOut(o, it.phase, it.key);
    AgreeAfter(m, b, r.inv, it.(phase := Closed), TakeOut(o, it.phase, it.key));
  }

  lemma ClosesOwnKey(m: Replayed, b: Book, id: InvId)
    requires Agree(m, b) && SlotsSafe(b) && IsOpen(b, id)
    ensures b[id].key in ListOf(At(m, b[id].run), b[id].phase)
    ensures CloseSlot(At(m, b[id].run), b[id].key.slot) == Some(TakeOut(At(m, b[id].run), b[id].phase, b[id].key))
  {
    AgreeListed(m, b, id);
    var it, o := b[id], At(m, b[id].run);
    OnlyOwnKey(m, b, id, Executing);
    OnlyOwnKey(m, b, id, Granted);
    OnlyOwnKey(m, b, id, Requested);
  }

  lemma OnlyOwnKey(m: Replayed, b: Book, id: InvId, ph: Phase)
    requires Agree(m, b) && SlotsSafe(b) && IsOpen(b, id) && ph != Closed
    ensures forall k | k in ListOf(At(m, b[id].run), ph) && k.slot == b[id].key.slot :: ph == b[id].phase && k == b[id].key
  {
    forall k | k in ListOf(At(m, b[id].run), ph) && k.slot == b[id].key.slot
      ensures ph == b[id].phase && k == b[id].key
    {
      var j := AgreeOwner(m, b, b[id].run, ph, k);
      assert j != id ==> Twins(b, id, j);
    }
  }

  lemma AgreeOpen(m: Replayed, b: Book, r: Record)
    requires Agree(m, b) && OpensWork(b, r) && TrackStep(b, r, true).Some?
    requires r.event.Invoked? ==> r.event.key !in At(m, r.event.run).granted
    requires !r.event.RunStarted? && !r.event.RunEnded?
    ensures ReplayStep(m, r.event).Some? && Agree(ReplayStep(m, r.event).value, TrackStep(b, r, true).value)
  {
    var o, key := At(m, r.event.run), r.event.key;
    MovedIn(o, key);
    if r.event.Invoked? {
      AgreeAfter(m, b, r.inv, Item(r.event.run, key, Executing, false), o.(executing := o.executing + [key]));
    } else {
      AgreeAfter(m, b, r.inv, Item(r.event.run, key, Requested, true), o.(requested := o.requested + [key]));
    }
  }

  /** Work that may be begun safely has no approved twin waiting. */
  lemma SafeHasNoneGranted(m: Replayed, b: Book, e: Event)
    requires Agree(m, b) && e.Invoked? && SafeToOpen(b, e)
    ensures e.key !in At(m, e.run).granted
  {
    if e.key in At(m, e.run).granted {
      var j := AgreeOwner(m, b, e.run, Granted, e.key);
      assert IsOpen(b, j);
    }
  }

  lemma AgreeRunEnded(m: Replayed, b: Book, r: Record)
    requires Agree(m, b) && r.event.RunEnded? && TrackStep(b, r, true).Some?
    ensures ReplayStep(m, r.event).Some? && Agree(ReplayStep(m, r.event).value, b)
  {
    var run := r.event.run;
    var o := At(m, run);
    forall ph: Phase | ph != Closed ensures ListOf(o, ph) == [] {
      if ListOf(o, ph) != [] {
        var j := AgreeOwner(m, b, run, ph, ListOf(o, ph)[0]);
      }
    }
    assert ListOf(o, Requested) == [] && ListOf(o, Granted) == [] && ListOf(o, Executing) == [];
    AgreeSame(m, b, run);
  }

  lemma AgreeSame(m: Replayed, b: Book, run: RunId)
    requires Agree(m, b)
    ensures Agree(m[run := At(m, run)], b)
  {
    var m' := m[run := At(m, run)];
    forall r: RunId, ph: Phase, key: Key | ph != Closed ensures AgreeAt(m', b, r, ph, key) {
      assert AgreeAt(m, b, r, ph, key) && At(m', r) == At(m, r);
    }
  }

  /** What a record outside any invocation may be, if restart is to stay in step. */
  predicate Harmless(b: Book, r: Record) {
    match r.event
    case RunStarted(_, _, _) => true
    case RunEnded(_, _) => true
    case Refused(run, slot, _) => SlotFree(b, run, slot)
    case _ => false
  }

  /** The disciplined step: the only demands are on records that begin work or stand alone. */
  predicate Disciplined(b: Book, r: Record) {
    && (r.inv == 0 ==> Harmless(b, r))
    && (OpensWork(b, r) ==> SafeToOpen(b, r.event))
  }

  lemma AgreeStep(m: Replayed, b: Book, r: Record)
    requires Agree(m, b) && SlotsSafe(b) && TrackStep(b, r, true).Some? && Disciplined(b, r)
    ensures ReplayStep(m, r.event).Some?
    ensures Agree(ReplayStep(m, r.event).value, TrackStep(b, r, true).value)
    ensures SlotsSafe(TrackStep(b, r, true).value)
  {
    if r.event.RunEnded? {
      AgreeRunEnded(m, b, r);
    } else if r.event.RunStarted? {
      AgreeSame(m, b, r.event.run);
    } else if r.inv == 0 {
      AgreeLoneRefusal(m, b, r);
    } else if r.inv !in b {
      if r.event.Invoked? {
        SafeHasNoneGranted(m, b, r.event);
      }
      AgreeOpen(m, b, r);
    } else if r.event.Refused? || r.event.Cancelled? {
      AgreeClose(m, b, r);
    } else {
      AgreeExact(m, b, r);
    }
    SafeAfter(b, r);
  }

  lemma AgreeLoneRefusal(m: Replayed, b: Book, r: Record)
    requires Agree(m, b) && r.event.Refused? && SlotFree(b, r.event.run, r.event.slot)
    ensures ReplayStep(m, r.event).Some? && Agree(ReplayStep(m, r.event).value, b)
  {
    var run, slot := r.event.run, r.event.slot;
    var o := At(m, run);
    forall ph: Phase, k: Key | ph != Closed && k in ListOf(o, ph) ensures k.slot != slot {
      var j := AgreeOwner(m, b, run, ph, k);
      assert IsOpen(b, j);
    }
    assert forall k | k in o.executing :: k in ListOf(o, Executing);
    assert forall k | k in o.granted :: k in ListOf(o, Granted);
    assert forall k | k in o.requested :: k in ListOf(o, Requested);
    assert CloseSlot(o, slot).None?;
    AgreeSame(m, b, run);
  }

  lemma SafeAfter(b: Book, r: Record)
    requires SlotsSafe(b) && TrackStep(b, r, true).Some? && Disciplined(b, r)
    ensures SlotsSafe(TrackStep(b, r, true).value)
  {
    var b' := TrackStep(b, r, true).value;
    forall i, j | i in b' && j in b' && Twins(b', i, j)
      ensures b'[i].phase == Executing && b'[j].phase == Executing && b'[i].key == b'[j].key
    {
      if i in b && j in b {
        assert Twins(b, i, j) || b' == b;
      }
    }
  }

  // ----- The exact condition -----

  /** Every way of finishing the work that is open now, and of ending runs, can be paired up. */
  ghost predicate ReplaysForever(records: seq<Record>)
    requires Track(records, true).Some?
  {
    forall ext: seq<Record> ::
      Track(records + ext, true).Some? && FinishesOnly(Track(records, true).value, ext) ==>
        Replay(records + ext).Some?
  }

  predicate FinishesOnly(b: Book, ext: seq<Record>) {
    forall r | r in ext :: r.event.RunEnded? || (r.inv in b && r.inv != 0 && !r.event.RunStarted?)
  }

  ghost predicate InStep(records: seq<Record>) {
    && Track(records, true).Some?
    && Replay(records).Some?
    && Agree(Replay(records).value, Track(records, true).value)
  }

  lemma {:induction false} TrackPrefix(records: seq<Record>, ext: seq<Record>, strict: bool)
    requires Track(records + ext, strict).Some?
    ensures Track(records, strict).Some?
    decreases |ext|
  {
    if ext == [] {
      assert records + ext == records;
    } else {
      var n := |ext| - 1;
      assert (records + ext)[..|records + ext| - 1] == records + ext[..n];
      TrackPrefix(records, ext[..n], strict);
    }
  }

  lemma {:induction false} TrackKeepsIds(records: seq<Record>, ext: seq<Record>)
    requires Track(records + ext, true).Some? && Track(records, true).Some?
    ensures Track(records, true).value.Keys <= Track(records + ext, true).value.Keys
    decreases |ext|
  {
    if ext == [] {
      assert records + ext == records;
    } else {
      var n := |ext| - 1;
      assert (records + ext)[..|records + ext| - 1] == records + ext[..n];
      TrackKeepsIds(records, ext[..n]);
    }
  }

  lemma {:induction false} FinishingStaysInStep(records: seq<Record>, ext: seq<Record>)
    requires InStep(records) && SlotsSafe(Track(records, true).value)
    requires Track(records + ext, true).Some? && FinishesOnly(Track(records, true).value, ext)
    ensures InStep(records + ext) && SlotsSafe(Track(records + ext, true).value)
    decreases |ext|
  {
    if ext == [] {
      assert records + ext == records;
    } else {
      var n := |ext| - 1;
      assert records + ext == records + ext[..n] + [ext[n]];
      TrackPrefix(records + ext[..n], [ext[n]], true);
      FinishingStaysInStep(records, ext[..n]);
      TrackKeepsIds(records, ext[..n]);
      TrackAppend(records + ext[..n], ext[n], true);
      ReplayAppend(records + ext[..n], ext[n]);
      AgreeStep(Replay(records + ext[..n]).value, Track(records + ext[..n], true).value, ext[n]);
    }
  }

  lemma CompletesOne(records: seq<Record>, id: InvId)
    requires Track(records, true).Some? && Replay(records).Some? && id != 0 && id in Track(records, true).value
    requires Track(records, true).value[id].phase == Executing
    ensures var b, m := Track(records, true).value, Replay(records).value;
            var it, o := b[id], At(m, b[id].run);
            var r := Record(Completed(it.run, it.key), id);
            && Track(records + [r], true) == Some(b[id := it.(phase := Closed)])
            && Replay(records + [r]) == if it.key in o.executing
                                        then Some(m[it.run := o.(executing := Without(o.executing, it.key))]) else None
  {
    var it := Track(records, true).value[id];
    TrackAppend(records, Record(Completed(it.run, it.key), id), true);
    ReplayAppend(records, Record(Completed(it.run, it.key), id));
  }

  lemma CancelsOne(records: seq<Record>, id: InvId)
    requires Track(records, true).Some? && Replay(records).Some? && id != 0 && IsOpen(Track(records, true).value, id)
    ensures var b, m := Track(records, true).value, Replay(records).value;
            var it := b[id];
            var o := CloseSlot(At(m, it.run), it.key.slot);
            var r := Record(Cancelled(it.run, it.key.slot), id);
            && Track(records + [r], true) == Some(b[id := it.(phase := Closed)])
            && Replay(records + [r]) == if o.Some? then Some(m[it.run := o.value]) else None
  {
    var it := Track(records, true).value[id];
    TrackAppend(records, Record(Cancelled(it.run, it.key.slot), id), true);
    ReplayAppend(records, Record(Cancelled(it.run, it.key.slot), id));
  }

  /** One key too few: completing the work under that key in turn runs the replay dry. */
  lemma {:induction false} Deficit(records: seq<Record>, run: RunId, key: Key) returns (ext: seq<Record>)
    requires Track(records, true).Some? && Replay(records).Some? && 0 !in Track(records, true).value
    requires Count(At(Replay(records).value, run).executing, key) < Tally(Track(records, true).value, run, Executing, key)
    ensures Track(records + ext, true).Some? && FinishesOnly(Track(records, true).value, ext)
    ensures Replay(records + ext).None?
    decreases Tally(Track(records, true).value, run, Executing, key)
  {
    hide Track, Replay, Tally, Without;
    var b, m := Track(records, true).value, Replay(records).value;
    var id := TallyMember(b, run, Executing, key);
    var r := Record(Completed(run, key), id);
    CompletesOne(records, id);
    if key !in At(m, run).executing {
      return [r];
    }
    TallyUpdate(b, id, b[id].(phase := Closed), run, Executing, key);
    var rest := Deficit(records + [r], run, key);
    ext := [r] + rest;
    assert records + ext == records + [r] + rest;
  }

  /** Two grants, or an executing and a waiting invocation, in one slot: cancel the one the replay will not pick. */
  lemma Misdirected(records: seq<Record>, x: InvId, y: InvId) returns (ext: seq<Record>)
    requires InStep(records) && 0 !in Track(records, true).value
    requires var b := Track(records, true).value;
             && Twins(b, x, y) && b[x].phase == Executing
             && (b[y].phase == Executing ==> b[y].key != b[x].key)
    ensures Track(records + ext, true).Some? && FinishesOnly(Track(records, true).value, ext)
    ensures Replay(records + ext).None?
  {
    hide Track, Replay, Tally, Without;
    var b, m := Track(records, true).value, Replay(records).value;
    var run, slot := b[x].run, b[x].key.slot;
    AgreeListed(m, b, x);
    var k := FindSlot(At(m, run).executing, slot).value;
    var c := if b[y].phase == Executing && b[y].key == k then x else y;
    CancelsOne(records, c);
    var r := Record(Cancelled(run, slot), c);
    assert AgreeAt(m, b, run, Executing, k);
    TallyUpdate(b, c, b[c].(phase := Closed), run, Executing, k);
    var rest := Deficit(records + [r], run, k);
    ext := [r] + rest;
    assert records + ext == records + [r] + rest;
  }

  lemma ExtendExactly(records: seq<Record>, r: Record)
    requires InStep(records) && r.inv != 0 && r.inv in Track(records, true).value
    requires r.event.ApprovalGranted? || r.event.Invoked?
    requires TrackStep(Track(records, true).value, r, true).Some?
    ensures InStep(records + [r])
    ensures Track(records + [r], true) == TrackStep(Track(records, true).value, r, true)
  {
    TrackAppend(records, r, true);
    ReplayAppend(records, r);
    AgreeExact(Replay(records).value, Track(records, true).value, r);
  }

  /** Waiting work can be approved and begun; that keeps the two readings in step. */
  lemma Begin(records: seq<Record>, x: InvId) returns (ext: seq<Record>)
    requires InStep(records) && x != 0 && IsOpen(Track(records, true).value, x)
    ensures InStep(records + ext) && FinishesOnly(Track(records, true).value, ext)
    ensures Track(records + ext, true).value ==
            Track(records, true).value[x := Track(records, true).value[x].(phase := Executing)]
    decreases if Track(records, true).value[x].phase == Requested then 1 else 0
  {
    var it := Track(records, true).value[x];
    if it.phase == Executing {
      ext := [];
      assert records + ext == records;
    } else if it.phase == Granted {
      ext := [Record(Invoked(it.run, it.key), x)];
      ExtendExactly(records, ext[0]);
    } else {
      var r := Record(ApprovalGranted(it.run, it.key), x);
      ExtendExactly(records, r);
      var rest := Begin(records + [r], x);
      ext := [r] + rest;
      assert records + ext == records + [r] + rest;
    }
  }

  lemma SafeReplaysForever(records: seq<Record>)
    requires InStep(records) && SlotsSafe(Track(records, true).value)
    ensures ReplaysForever(records)
  {
    forall ext: seq<Record> | Track(records + ext, true).Some? && FinishesOnly(Track(records, true).value, ext)
      ensures Replay(records + ext).Some?
    {
      FinishingStaysInStep(records, ext);
    }
  }

  lemma UnsafeLosesTrack(records: seq<Record>, i: InvId, j: InvId) returns (ext: seq<Record>)
    requires InStep(records) && 0 !in Track(records, true).value
    requires var b := Track(records, true).value;
             && Twins(b, i, j) && (b[j].phase == Executing ==> b[i].phase == Executing && b[j].key != b[i].key)
    ensures Track(records + ext, true).Some? && FinishesOnly(Track(records, true).value, ext)
    ensures Replay(records + ext).None?
  {
    var begin := Begin(records, i);
    var rest := Misdirected(records + begin, i, j);
    ext := begin + rest;
    assert records + ext == records + begin + rest;
  }

  /**
    Exactly when the open work can be finished in every possible order without a
    restart ever losing track: any two open invocations of one run, capability and
    data scope must both be executing, under the same grant.
   */
  lemma ReplaysForeverIffSlotsSafe(records: seq<Record>)
    requires InStep(records) && 0 !in Track(records, true).value
    ensures ReplaysForever(records) <==> SlotsSafe(Track(records, true).value)
  {
    var b := Track(records, true).value;
    if SlotsSafe(b) {
      SafeReplaysForever(records);
    } else {
      var i, j :| i in b && j in b && Twins(b, i, j)
        && !(b[i].phase == Executing && b[j].phase == Executing && b[i].key == b[j].key);
      if b[j].phase == Executing && b[i].phase != Executing {
        var ext := UnsafeLosesTrack(records, j, i);
      } else {
        var ext := UnsafeLosesTrack(records, i, j);
      }
    }
  }

  // ----- The exact condition for beginning work -----

  ghost predicate Steady(records: seq<Record>) {
    InStep(records) && SlotsSafe(Track(records, true).value)
  }

  lemma SteadyStep(records: seq<Record>, r: Record)
    requires Steady(records) && TrackStep(Track(records, true).value, r, true).Some?
    requires Disciplined(Track(records, true).value, r)
    ensures Steady(records + [r])
    ensures Track(records + [r], true) == TrackStep(Track(records, true).value, r, true)
  {
    TrackAppend(records, r, true);
    ReplayAppend(records, r);
    AgreeStep(Replay(records).value, Track(records, true).value, r);
  }

  lemma BeginsOne(records: seq<Record>, r: Record)
    requires Track(records, true).Some? && Replay(records).Some?
    requires OpensWork(Track(records, true).value, r) && r.event.Invoked?
    ensures Track(records + [r], true)
            == Some(Track(records, true).value[r.inv := Item(r.event.run, r.event.key, Executing, false)])
    ensures Replay(records + [r]).Some?
    ensures var o := At(Replay(records).value, r.event.run);
            At(Replay(records + [r]).value, r.event.run).executing == o.executing + [r.event.key]
  {
    TrackAppend(records, r, true);
    ReplayAppend(records, r);
  }

  /** Unsafe opening, first case: an approved twin waits, and the replay takes its approval for the new work. */
  lemma ApprovalTaken(records: seq<Record>, r: Record, j: InvId) returns (ext: seq<Record>)
    requires Steady(records) && 0 !in Track(records, true).value
    requires OpensWork(Track(records, true).value, r) && r.event.Invoked?
    requires var b := Track(records, true).value;
             j in b && b[j].phase == Granted && b[j].run == r.event.run && b[j].key == r.event.key
    ensures Track(records + [r] + ext, true).Some?
    ensures FinishesOnly(Track(records, true).value[r.inv := Item(r.event.run, r.event.key, Executing, false)], ext)
    ensures Replay(records + [r] + ext).None?
  {
    hide Track, Replay, Tally, Without, ReplayStep, TrackStep;
    var b, m := Track(records, true).value, Replay(records).value;
    var run, key := r.event.run, r.event.key;
    var cancel, complete := Record(Cancelled(run, key.slot), j), Record(Completed(run, key), r.inv);
    BeginsOne(records, r);
    NoExecutingTwin(m, b, j);
    LastOfSlot(At(m, run).executing, key);
    CancelsOne(records + [r], j);
    CompletesOne(records + [r] + [cancel], r.inv);
    ext := [cancel, complete];
    assert records + [r] + [cancel] + [complete] == records + [r] + ext;
  }

  lemma NoExecutingTwin(m: Replayed, b: Book, j: InvId)
    requires Agree(m, b) && SlotsSafe(b) && IsOpen(b, j) && b[j].phase != Executing
    ensures forall k | k in At(m, b[j].run).executing :: k.slot != b[j].key.slot
  {
    OnlyOwnKey(m, b, j, Executing);
    assert forall k | k in At(m, b[j].run).executing :: k in ListOf(At(m, b[j].run), Executing);
  }

  lemma {:induction false} LastOfSlot(ks: seq<Key>, key: Key)
    requires forall k | k in ks :: k.slot != key.slot
    ensures FindSlot(ks + [key], key.slot) == Some(key) && Without(ks + [key], key) == ks
  {
    if ks == [] {
      assert ks + [key] == [key];
    } else {
      assert (ks + [key])[1..] == ks[1..] + [key];
      LastOfSlot(ks[1..], key);
      assert forall i | 0 <= i < |ks| :: (ks + [key])[i] == ks[i] && ks[i] in ks;
    }
  }

  /**
    Before work is begun: every way of finishing it afterwards can be paired up
    exactly if no open twin waits for approval or uses another grant; and for work
    that itself asks for approval, exactly if there is no open twin at all.
   */
  lemma OpeningSafeIff(records: seq<Record>, r: Record)
    requires Steady(records) && 0 !in Track(records, true).value && OpensWork(Track(records, true).value, r)
    requires r.event.ApprovalRequested? || r.event.Invoked?
    ensures Track(records + [r], true).Some?
    ensures ReplaysForever(records + [r]) <==> SafeToOpen(Track(records, true).value, r.event)
  {
    var b, m := Track(records, true).value, Replay(records).value;
    TrackAppend(records, r, true);
    if SafeToOpen(b, r.event) {
      SteadyStep(records, r);
      SafeReplaysForever(records + [r]);
    } else if r.event.Invoked? && r.event.key in At(m, r.event.run).granted {
      var j := AgreeOwner(m, b, r.event.run, Granted, r.event.key);
      var ext := ApprovalTaken(records, r, j);
    } else {
      ReplayAppend(records, r);
      AgreeOpen(m, b, r);
      UnsafeOpening(b, r);
      ReplaysForeverIffSlotsSafe(records + [r]);
    }
  }

  lemma UnsafeOpening(b: Book, r: Record)
    requires OpensWork(b, r) && (r.event.ApprovalRequested? || r.event.Invoked?) && !SafeToOpen(b, r.event)
    ensures !SlotsSafe(TrackStep(b, r, true).value)
  {
    var b' := TrackStep(b, r, true).value;
    var run, key := r.event.run, r.event.key;
    var i :| i in b && IsOpen(b, i) && b[i].run == run && b[i].key.slot == key.slot
      && (r.event.ApprovalRequested? || b[i].phase != Executing || b[i].key != key);
    assert Twins(b', r.inv, i);
  }

  /** A refused attempt that never became work is harmless exactly if its slot has no open work. */
  lemma LoneRefusalSafeIff(records: seq<Record>, r: Record)
    requires Steady(records) && 0 !in Track(records, true).value && r.inv == 0 && r.event.Refused?
    ensures Track(records + [r], true).Some?
    ensures ReplaysForever(records + [r]) <==> SlotFree(Track(records, true).value, r.event.run, r.event.slot)
  {
    var b := Track(records, true).value;
    TrackAppend(records, r, true);
    if SlotFree(b, r.event.run, r.event.slot) {
      SteadyStep(records, r);
      SafeReplaysForever(records + [r]);
    } else {
      var x :| x in b && IsOpen(b, x) && b[x].run == r.event.run && b[x].key.slot == r.event.slot;
      var ext := RefusalClosesOther(records, r, x);
    }
  }

  lemma RefusalClosesOther(records: seq<Record>, r: Record, x: InvId) returns (ext: seq<Record>)
    requires Steady(records) && 0 !in Track(records, true).value && r.inv == 0 && r.event.Refused?
    requires var b := Track(records, true).value;
             IsOpen(b, x) && b[x].run == r.event.run && b[x].key.slot == r.event.slot
    ensures Track(records + [r], true) == Track(records, true)
    ensures Track(records + [r] + ext, true).Some? && FinishesOnly(Track(records, true).value, ext)
    ensures Replay(records + [r] + ext).None?
  {
    hide Track, Replay, Tally, Without, SlotsSafe;
    var b, m := Track(records, true).value, Replay(records).value;
    var it := b[x];
    RefusedAfter(records, r);
    ClosesOwnKey(m, b, x);
    assert AgreeAt(m, b, it.run, it.phase, it.key);
    if it.phase == Executing {
      FewerExecuting(At(m, it.run), it.key);
      ext := Deficit(records + [r], it.run, it.key);
    } else {
      SoleWaiting(m, b, x);
      CancelsOne(records + [r], x);
      ext := [Record(Cancelled(it.run, it.key.slot), x)];
    }
  }

  lemma RefusedAfter(records: seq<Record>, r: Record)
    requires Track(records, true).Some? && Replay(records).Some? && r.inv == 0 && r.event.Refused?
    ensures Track(records + [r], true) == Track(records, true)
    ensures var m := Replay(records).value;
            var o := CloseSlot(At(m, r.event.run), r.event.slot);
            o.Some? ==> Replay(records + [r]) == Some(m[r.event.run := o.value])
  {
    TrackAppend(records, r, true);
    ReplayAppend(records, r);
  }

  lemma FewerExecuting(o: Outstanding, key: Key)
    requires key in o.executing
    ensures Count(TakeOut(o, Executing, key).executing, key) == Count(o.executing, key) - 1
  {
  }

  /** Waiting work in safe slots is alone in its slot; taken out, the slot is empty. */
  lemma SoleWaiting(m: Replayed, b: Book, x: InvId)
    requires Agree(m, b) && SlotsSafe(b) && IsOpen(b, x) && b[x].phase != Executing
    requires b[x].key in ListOf(At(m, b[x].run), b[x].phase)
    ensures CloseSlot(TakeOut(At(m, b[x].run), b[x].phase, b[x].key), b[x].key.slot).None?
  {
    var it, o := b[x], At(m, b[x].run);
    var o' := TakeOut(o, it.phase, it.key);
    OnlyOwnKey(m, b, x, Executing);
    OnlyOwnKey(m, b, x, Granted);
    OnlyOwnKey(m, b, x, Requested);
    assert Holders(b, it.run, it.phase, it.key) == {x} by {
      forall y | y in Holders(b, it.run, it.phase, it.key) ensures y == x {
        assert y != x ==> Twins(b, x, y);
      }
    }
    assert AgreeAt(m, b, it.run, it.phase, it.key);
    TakenOutIsGone(o, it.phase, it.key);
    forall ph: Phase, k: Key | ph != Closed && k in ListOf(o', ph) ensures k in ListOf(o, ph) && k.slot != it.key.slot {
      TakenOutRest(o, it.phase, it.key, ph, k);
    }
    assert forall k | k in o'.executing :: k in ListOf(o', Executing);
    assert forall k | k in o'.granted :: k in ListOf(o', Granted);
    assert forall k | k in o'.requested :: k in ListOf(o', Requested);
  }

  lemma TakenOutIsGone(o: Outstanding, ph: Phase, key: Key)
    requires ph != Closed && key in ListOf(o, ph) && Count(ListOf(o, ph), key) == 1
    ensures key !in ListOf(TakeOut(o, ph, key), ph)
  {
    assert Count(ListOf(TakeOut(o, ph, key), ph), key) == 0;
  }

  lemma TakenOutRest(o: Outstanding, ph: Phase, key: Key, ph': Phase, k: Key)
    requires ph != Closed && key in ListOf(o, ph) && ph' != Closed && k in ListOf(TakeOut(o, ph, key), ph')
    ensures k in ListOf(o, ph')
  {
    assert Count(ListOf(TakeOut(o, ph, key), ph'), k) > 0;
  }
}
