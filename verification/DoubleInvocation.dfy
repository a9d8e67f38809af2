/**
  An unprompted invocation that is recorded as begun twice leaves one key behind
  that nothing will ever close: no later record can end its run in a way a restart
  accepts.
 */
module DoubleInvocation {
  import opened Domain
  import opened ActionLog
  import opened ReplayAgreement

  function Load(o: Outstanding): nat {
    |o.requested| + |o.granted| + |o.executing|
  }

  function OpenIds(b: Book, run: RunId): set<InvId> {
    set id | id in b && b[id].phase != Closed && b[id].run == run
  }

  /** The items of `ids`, and nothing else, are listed in `o`. */
  ghost predicate Lists(o: Outstanding, b: Book, ids: set<InvId>) {
    && (forall id | id in ids :: IsOpen(b, id))
    && forall ph: Phase, key: Key | ph != Closed :: Listed(o, b, ids, ph, key)
  }

  ghost predicate Listed(o: Outstanding, b: Book, ids: set<InvId>, ph: Phase, key: Key)
    requires ph != Closed
  {
    Count(ListOf(o, ph), key) == |Sharing(b, ids, ph, key)|
  }

  function Sharing(b: Book, ids: set<InvId>, ph: Phase, key: Key): set<InvId> {
    set id | id in ids && id in b && b[id].phase == ph && b[id].key == key
  }

  lemma ListsNothing(o: Outstanding, b: Book, ph: Phase)
    requires Lists(o, b, {}) && ph != Closed
    ensures ListOf(o, ph) == []
  {
    forall key: Key ensures Count(ListOf(o, ph), key) == 0 {
      assert Listed(o, b, {}, ph, key) && Sharing(b, {}, ph, key) == {};
    }
    assert ListOf(o, ph) == [] || Count(ListOf(o, ph), ListOf(o, ph)[0]) > 0;
  }

  lemma ListedRest(o: Outstanding, b: Book, ids: set<InvId>, id: InvId, ph: Phase, key: Key)
    requires id in ids && IsOpen(b, id) && ph != Closed && Listed(o, b, ids, ph, key)
    requires b[id].key in ListOf(o, b[id].phase)
    ensures Listed(TakeOut(o, b[id].phase, b[id].key), b, ids - {id}, ph, key)
  {
    var all := Sharing(b, ids, ph, key);
    assert Sharing(b, ids - {id}, ph, key) == all - {id};
    assert id in all <==> b[id].phase == ph && b[id].key == key;
  }

  lemma {:induction false} LoadIsNumberOfIds(o: Outstanding, b: Book, ids: set<InvId>)
    requires Lists(o, b, ids)
    ensures Load(o) == |ids|
    decreases |ids|
  {
    if ids == {} {
      ListsNothing(o, b, Requested);
      ListsNothing(o, b, Granted);
      ListsNothing(o, b, Executing);
    } else {
      var id :| id in ids;
      var it := b[id];
      assert Listed(o, b, ids, it.phase, it.key) && id in Sharing(b, ids, it.phase, it.key);
      var o', ids' := TakeOut(o, it.phase, it.key), ids - {id};
      forall ph: Phase, key: Key | ph != Closed ensures Listed(o', b, ids', ph, key) {
        assert Listed(o, b, ids, ph, key);
        ListedRest(o, b, ids, id, ph, key);
      }
      LoadIsNumberOfIds(o', b, ids');
    }
  }

  lemma AgreeLoad(m: Replayed, b: Book, run: RunId)
    requires Agree(m, b)
    ensures Load(At(m, run)) == |OpenIds(b, run)|
  {
    var o, ids := At(m, run), OpenIds(b, run);
    forall ph: Phase, key: Key | ph != Closed ensures Listed(o, b, ids, ph, key) {
      assert AgreeAt(m, b, run, ph, key);
      assert Sharing(b, ids, ph, key) == Holders(b, run, ph, key);
    }
    LoadIsNumberOfIds(o, b, ids);
  }

  ghost predicate Excess(m: Replayed, b: Book, run: RunId) {
    Load(At(m, run)) > |OpenIds(b, run)|
  }

  lemma OpenIdsChange(b: Book, r: Record, run: RunId)
    requires r.inv in b && r.inv != 0 && !r.event.RunStarted? && !r.event.RunEnded?
    requires TrackStep(b, r, false).Some?
    ensures var n, n' := |OpenIds(b, run)|, |OpenIds(TrackStep(b, r, false).value, run)|;
            n' == if IsTerminal(r.event) && r.event.run == run then n - 1 else n
  {
    var b' := TrackStep(b, r, false).value;
    var ids, ids' := OpenIds(b, run), OpenIds(b', run);
    if IsTerminal(r.event) && r.event.run == run {
      assert ids' == ids - {r.inv} && r.inv in ids;
    } else {
      assert ids' == ids;
    }
  }

  lemma LoadChange(o: Outstanding, e: Event)
    requires ReplayEvent(o, e).Some?
    ensures Load(ReplayEvent(o, e).value) >= Load(o) - if IsTerminal(e) then 1 else 0
  {
  }

  /** Finishing work takes at most one key away, and never a key without closing an invocation. */
  lemma ExcessStep(m: Replayed, b: Book, r: Record, run: RunId)
    requires Excess(m, b, run) && TrackStep(b, r, false).Some? && FinishesOnly(b, [r])
    requires ReplayStep(m, r.event).Some?
    ensures Excess(ReplayStep(m, r.event).value, TrackStep(b, r, false).value, run)
    ensures r.event.RunEnded? ==> r.event.run != run
  {
    assert r in [r];
    if !r.event.RunEnded? {
      OpenIdsChange(b, r, run);
      LoadChange(At(m, r.event.run), r.event);
    }
  }

  lemma {:induction false} ExcessForever(records: seq<Record>, b: Book, ext: seq<Record>, run: RunId)
    requires Track(records, false).Some? && b.Keys <= Track(records, false).value.Keys && FinishesOnly(b, ext)
    requires Replay(records).Some? && Excess(Replay(records).value, Track(records, false).value, run)
    requires Track(records + ext, false).Some? && Replay(records + ext).Some?
    ensures Excess(Replay(records + ext).value, Track(records + ext, false).value, run)
    ensures b.Keys <= Track(records + ext, false).value.Keys
    ensures forall r | r in ext :: r.event.RunEnded? ==> r.event.run != run
    decreases |ext|
  {
    if ext == [] {
      assert records + ext == records;
    } else {
      var n := |ext| - 1;
      var now := records + ext[..n];
      assert records + ext == now + [ext[n]];
      assert (now + [ext[n]])[..|now|] == now;
      ExcessForever(records, b, ext[..n], run);
      assert ext[n] in ext;
      ExcessStep(Replay(now).value, Track(now, false).value, ext[n], run);
      assert forall r | r in ext :: r in ext[..n] || r == ext[n];
    }
  }

  lemma {:induction false} StrictIsPermissive(records: seq<Record>)
    requires Track(records, true).Some?
    ensures Track(records, false) == Track(records, true)
  {
    if records != [] {
      StrictIsPermissive(records[..|records| - 1]);
    }
  }

  /**
    After the second record that work began, every history that finishes work and
    ends the run is one a restart refuses.
   */
  lemma DoublyBegunCannotRestart(records: seq<Record>, id: InvId, ext: seq<Record>)
    requires InStep(records) && SlotsSafe(Track(records, true).value)
    requires id in Track(records, true).value && id != 0
    requires var it := Track(records, true).value[id]; it.phase == Executing && !it.prompted
    requires var it := Track(records, true).value[id];
             && Track(records + [Record(Invoked(it.run, it.key), id)] + ext, false).Some?
             && exists r :: r in ext && r.event.RunEnded? && r.event.run == it.run
    requires FinishesOnly(Track(records, true).value, ext)
    ensures var it := Track(records, true).value[id];
            Replay(records + [Record(Invoked(it.run, it.key), id)] + ext).None?
  {
    var b := Track(records, true).value;
    var it := b[id];
    var again := Record(Invoked(it.run, it.key), id);
    var now := records + [again];
    StrictIsPermissive(records);
    TrackAppend(records, again, false);
    ReplayAppend(records, again);
    assert b[id := it] == b;
    var m := Replay(records).value;
    AgreeLoad(m, b, it.run);
    if it.key in At(m, it.run).granted {
      var j := AgreeOwner(m, b, it.run, Granted, it.key);
      assert Twins(b, id, j);
    }
    if Replay(now + ext).Some? {
      ExcessForever(now, b, ext, it.run);
    }
  }
}
