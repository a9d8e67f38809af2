/**
  Completing an invocation keeps the invariant: its artifacts, their production
  records and the completion that vouches for them arrive together.
 */
module CompletionInvariant {
  import opened Basics
  import opened Domain
  import opened Ledger
  import opened ActionLog
  import opened KernelState
  import opened ActionPath
  import opened Provenance
  import opened KernelInvariant
  import opened ActionInvariant

  /** `n` production records of one run with consecutive artifact ids, then one other record. */
  ghost predicate Block(rs: seq<Record>, first: ArtifactId, n: nat, run: RunId) {
    && |rs| == n + 1 && !rs[n].event.Produced?
    && (forall i | 0 <= i < n :: rs[i].event.Produced? && rs[i].event.artifact == first + i && rs[i].event.run == run)
  }

  lemma {:induction false} BlockEnd(records: seq<Record>, rs: seq<Record>, first: ArtifactId, n: nat, run: RunId, i: nat)
    requires Block(rs, first, n, run) && |records| <= i <= |records| + n
    ensures NextOther(records + rs, i) == |records| + n
    decreases |records| + n - i
  {
    assert (records + rs)[i] == rs[i - |records|];
    if i < |records| + n {
      BlockEnd(records, rs, first, n, run, i + 1);
    }
  }

  lemma BlockProductions(records: seq<Record>, rs: seq<Record>, first: ArtifactId, n: nat, run: RunId)
    requires Block(rs, first, n, run)
    ensures forall i :: IsProduced(records + rs, i) <==> IsProduced(records, i) || |records| <= i < |records| + n
    ensures forall i | |records| <= i < |records| + n :: (records + rs)[i].event == rs[i - |records|].event
  {
    assert forall i | 0 <= i < |records + rs| :: (records + rs)[i] == if i < |records| then records[i] else rs[i - |records|];
  }

  /** New artifact ids keep production records unique and matched by the stored artifacts. */
  lemma BlockIds(records: seq<Record>, rs: seq<Record>, first: ArtifactId, n: nat, run: RunId)
    requires Block(rs, first, n, run) && ProducedOnce(records)
    requires forall a | a in ProducedIds(records) :: a < first
    ensures ProducedOnce(records + rs)
    ensures forall a :: a in ProducedIds(records + rs) <==> a in ProducedIds(records) || first <= a < first + n
  {
    var all := records + rs;
    BlockProductions(records, rs, first, n, run);
    forall i | IsProduced(records, i) ensures all[i] == records[i] && all[i].event.artifact in ProducedIds(records) {
    }
    forall i | |records| <= i < |records| + n ensures all[i].event.artifact == first + (i - |records|) {
    }
    forall a ensures a in ProducedIds(all) <==> a in ProducedIds(records) || first <= a < first + n {
      if a in ProducedIds(records) {
        var i :| 0 <= i < |records| && IsProduced(records, i) && records[i].event.artifact == a;
        assert IsProduced(all, i) && all[i].event.artifact == a;
      }
      if first <= a < first + n {
        var i := |records| + (a - first);
        assert IsProduced(all, i) && all[i].event.artifact == a;
      }
    }
  }

  lemma CompletionBlock(s: Kernel, id: InvId, drafts: seq<Draft>, rs: seq<Record>)
    requires id in s.pending
    requires rs == ProductionRecords(s, id, drafts) + [Record(Completed(s.pending[id].run, s.pending[id].Key()), id)]
    ensures Block(rs, s.nextId, |drafts|, s.pending[id].run)
    ensures forall i | 0 <= i < |drafts| :: rs[i] == Record(Produced(s.pending[id].run, s.nextId + i, drafts[i].kind), id)
    ensures forall r | r in rs :: r.inv == id && r.event.run == s.pending[id].run
                               && !r.event.RunStarted? && !r.event.RunEnded?
  {
  }

  /** The invocation's grant vouches for what is stamped under it. */
  lemma StampVouched(s: Kernel, id: InvId, drafts: seq<Draft>, a: ArtifactId)
    requires id in s.pending && s.nextId <= a < s.nextId + |drafts|
    requires EntryOk(s.registry, s.handlers, s.ledger.runs, s.broker.grants, s.pending[id])
    ensures Vouches(s.pending[id].grant, s.ledger.runs, Stamp(s, id, drafts, a),
                    Completed(s.pending[id].run, s.pending[id].Key()))
  {
  }

  lemma BlockBacked(d: Durable, before: seq<Record>, rs: seq<Record>, first: ArtifactId, n: nat, run: RunId,
                    k: nat, art: Artifact, g: Grant)
    requires d.records == before + rs && Block(rs, first, n, run) && k < n
    requires art.id == first + k && art.id in d.artifacts && d.artifacts[art.id] == art
    requires art.run == run && art.kind == rs[k].event.kind && art.producedBy == art.cap.provider
    requires g in d.broker.grants && Vouches(g, RunsOf(d.records), art, rs[n].event)
    ensures IsProduced(d.records, |before| + k) && Backed(d, |before| + k)
  {
    hide RunsOf, NextOther, Vouches;
    BlockEnd(before, rs, first, n, run, |before| + k + 1);
    assert d.records[|before| + k] == rs[k] && d.records[|before| + n] == rs[n];
  }

  /** A stamped artifact is backed by its production record, its block's completion and the invocation's grant. */
  lemma StampedBacked(s: Kernel, id: InvId, drafts: seq<Draft>, rs: seq<Record>, d': Durable, k: nat)
    requires id in s.pending && k < |drafts|
    requires rs == ProductionRecords(s, id, drafts) + [Record(Completed(s.pending[id].run, s.pending[id].Key()), id)]
    requires d' == Projection(s).(records := s.ledger.records + rs, artifacts := s.artifacts + StampedArtifacts(s, id, drafts))
    requires RunsOf(d'.records) == s.ledger.runs
    requires EntryOk(s.registry, s.handlers, s.ledger.runs, s.broker.grants, s.pending[id])
    ensures IsProduced(d'.records, |s.ledger.records| + k) && Backed(d', |s.ledger.records| + k)
  {
    hide RunsOf, NextOther, EntryOk, Vouches, Backed, Block, ProductionRecords, IsProduced;
    var p, a := s.pending[id], s.nextId + k;
    CompletionBlock(s, id, drafts, rs);
    StampVouched(s, id, drafts, a);
    GrantOf(s, id);
    BlockBacked(d', s.ledger.records, rs, s.nextId, |drafts|, p.run, k, Stamp(s, id, drafts, a), p.grant);
  }

  lemma GrantOf(s: Kernel, id: InvId)
    requires id in s.pending && EntryOk(s.registry, s.handlers, s.ledger.runs, s.broker.grants, s.pending[id])
    ensures s.pending[id].grant in s.broker.grants
  {
  }

  lemma CompletedBacked(s: Kernel, id: InvId, drafts: seq<Draft>, rs: seq<Record>, d': Durable, i: nat)
    requires id in s.pending && AllBacked(Projection(s)) && IsProduced(d'.records, i)
    requires EntryOk(s.registry, s.handlers, s.ledger.runs, s.broker.grants, s.pending[id])
    requires forall a | a in s.artifacts :: a < s.nextId
    requires rs == ProductionRecords(s, id, drafts) + [Record(Completed(s.pending[id].run, s.pending[id].Key()), id)]
    requires d' == Projection(s).(records := s.ledger.records + rs, artifacts := s.artifacts + StampedArtifacts(s, id, drafts))
    requires RunsOf(d'.records) == s.ledger.runs == RunsOf(s.ledger.records)
    ensures Backed(d', i)
  {
    hide Backed, RunsOf, EntryOk;
    var d := Projection(s);
    if i < |d.records| {
      assert IsProduced(d.records, i);
      BackedAppend(d, d', rs, i);
    } else {
      CompletionBlock(s, id, drafts, rs);
      BlockProductions(d.records, rs, s.nextId, |drafts|, s.pending[id].run);
      StampedBacked(s, id, drafts, rs, d', i - |d.records|);
    }
  }

  lemma CompletedValidated(s: Kernel, id: InvId, drafts: seq<Draft>, rs: seq<Record>, d': Durable)
    requires Inv(s) && id in s.pending
    requires rs == ProductionRecords(s, id, drafts) + [Record(Completed(s.pending[id].run, s.pending[id].Key()), id)]
    requires d' == Projection(s).(records := s.ledger.records + rs, artifacts := s.artifacts + StampedArtifacts(s, id, drafts))
    requires RunsOf(d'.records) == s.ledger.runs
    ensures Validated(d')
  {
    hide Inv, Backed, Block, ProducedOnce, ProducedIds, LiveInstalled, RunsOf, ProductionRecords, StampedArtifacts, IsProduced;
    CompletionBlock(s, id, drafts, rs);
    CompletedIds(s, id, drafts, rs, d');
    EntryFacts(s, id);
    forall i: nat | IsProduced(d'.records, i) ensures Backed(d', i) {
      CompletedBacked(s, id, drafts, rs, d', i);
    }
    assert AllBacked(d');
  }

  lemma CompletedIds(s: Kernel, id: InvId, drafts: seq<Draft>, rs: seq<Record>, d': Durable)
    requires Inv(s) && id in s.pending && Block(rs, s.nextId, |drafts|, s.pending[id].run)
    requires d' == Projection(s).(records := s.ledger.records + rs, artifacts := s.artifacts + StampedArtifacts(s, id, drafts))
    ensures ProducedOnce(d'.records) && ProducedIds(d'.records) == d'.artifacts.Keys
    ensures LiveInstalled(d'.registry, d'.broker) && AllBacked(Projection(s))
    ensures s.ledger.runs == RunsOf(s.ledger.records) && forall a | a in s.artifacts :: a < s.nextId
  {
    hide BookOk, HandlersOk, PendingOk, DiskOk, AllBacked, ManifestsOk, GrantsOk;
    BlockIds(s.ledger.records, rs, s.nextId, |drafts|, s.pending[id].run);
  }

  lemma CompletedState(s: Kernel, id: InvId, drafts: seq<Draft>, rs: seq<Record>, d': Durable)
    requires Inv(s) && id in s.pending
    requires rs == ProductionRecords(s, id, drafts) + [Record(Completed(s.pending[id].run, s.pending[id].Key()), id)]
    requires d' == Projection(s).(records := s.ledger.records + rs, artifacts := s.artifacts + StampedArtifacts(s, id, drafts))
    ensures AppendAll(s.ledger, rs) == Some(RunLedger(s.ledger.records + rs, s.ledger.runs))
    ensures StateOk(AppendAll(s.ledger, rs).value, d', s.nextId + |drafts|)
  {
    hide BookOk, HandlersOk, PendingOk, DiskOk, Validated, ManifestsOk, GrantsOk;
    CompletionBlock(s, id, drafts, rs);
    EntryFacts(s, id);
    AppendQuiet(s.ledger, rs);
    AppendAllSound(s.ledger, rs);
    CompletedValidated(s, id, drafts, rs, d');
  }

  lemma {:induction false} TrackProductions(b: Book, id: InvId, rs: seq<Record>)
    requires id in b && id != 0 && b[id].phase == Executing
    requires forall r | r in rs :: r.inv == id && r.event.Produced? && r.event.run == b[id].run
    ensures TrackAll(b, rs, false) == Some(b)
    decreases |rs|
  {
    if rs != [] {
      TrackProductions(b, id, rs[1..]);
    }
  }

  lemma CompletedBook(s: Kernel, id: InvId, drafts: seq<Draft>, rs: seq<Record>)
    requires Inv(s) && id in s.pending && s.pending[id].authorized
    requires rs == ProductionRecords(s, id, drafts) + [Record(Completed(s.pending[id].run, s.pending[id].Key()), id)]
    ensures Track(s.ledger.records, false).Some? && id in Track(s.ledger.records, false).value
    ensures var b := Track(s.ledger.records, false).value;
            Track(s.ledger.records + rs, false) == Some(b[id := b[id].(phase := Closed)])
  {
    hide Inv;
    EntryFacts(s, id);
    var b := Track(s.ledger.records, false).value;
    var productions, completion := ProductionRecords(s, id, drafts), [rs[|drafts|]];
    TrackProductions(b, id, productions);
    assert TrackAll(b[id := b[id].(phase := Closed)], completion[1..], false).Some?;
    TrackAllConcat(b, productions, completion, false);
    TrackAppendAll(s.ledger.records, rs, false);
  }

  lemma CompleteInv(s: Kernel, id: InvId, drafts: seq<Draft>)
    requires Inv(s) && id in s.pending && s.pending[id].authorized
    ensures Inv(Complete(s, id, drafts).0)
  {
    hide StateOk, Restorable, Below, HandlersOk, PendingOk, BookMatches, Track;
    var p := s.pending[id];
    var rs := ProductionRecords(s, id, drafts) + [Record(Completed(p.run, p.Key()), id)];
    var artifacts := s.artifacts + StampedArtifacts(s, id, drafts);
    var s0 := s.(nextId := s.nextId + |drafts|);
    MoreIds(s, s.nextId + |drafts|);
    var d := Projection(s).(records := s.ledger.records + rs, artifacts := artifacts);
    CompletedState(s, id, drafts, rs, d);
    CompletedBook(s, id, drafts, rs);
    var (s1, ok) := Offer(s0, d);
    if ok {
      var m := s0.(ledger := AppendAll(s.ledger, rs).value, artifacts := artifacts, pending := s.pending - {id});
      BookClose(Track(s.ledger.records, false).value, s.pending, s.tokens, s.nextInv, id);
      FewerPending(s, id);
      assert Projection(m) == d;
      OfferAdopted(s0, m, Complete(s, id, drafts).0);
    } else {
      OfferFacts(s0, d, s.nextId + |drafts|);
      OfferFailed(s0, d);
      ConsumeInv(s1, id);
    }
  }

  lemma FewerPending(s: Kernel, id: InvId)
    requires Inv(s)
    ensures PendingOk(s.registry, s.handlers, s.ledger.runs, s.broker.grants, s.pending - {id})
  {
  }

  lemma OfferFacts(s: Kernel, d: Durable, nextId: nat)
    requires exists l :: StateOk(l, d, nextId)
    ensures Restorable(d) && Below(d, nextId)
  {
  }

  lemma FinalizeInv(s: Kernel, id: InvId, t: Clock)
    requires Inv(s) && id in s.tokens && s.tokens[id].Executed?
    ensures Inv(Finalize(s, id, t).0)
  {
    hide Inv, CloseStale, Complete, Fail;
    var s0 := s.(tokens := s.tokens - {id});
    SpendTokenInv(s, id);
    if id in s.pending && s.pending[id].authorized {
      var v, x := Revalidate(s0, id, t), s.tokens[id].execution;
      CloseStaleInv(s0, id, v);
      CloseStaleInv(s0, id, Stopped);
      if x.Returned? {
        CompleteInv(s0, id, x.drafts);
      }
      FailInv(s0, id);
    }
  }
}
