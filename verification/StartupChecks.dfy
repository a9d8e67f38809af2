/**
  What a restart accepts, spelled out position by position and grant by grant, and
  what it adds to a state it accepts.
 */
module StartupChecks {
  import opened Basics
  import opened Domain
  import opened Ledger
  import opened Broker
  import opened ActionLog
  import opened Settlement
  import opened KernelState
  import opened Lifecycle
  import opened Provenance
  import opened Recovery
  import opened Coverage

  // ----- The ledger, position by position -----

  predicate StartsAt(records: seq<Record>, k: int, run: RunId) {
    0 <= k < |records| && records[k].event.RunStarted? && records[k].event.run == run
  }

  predicate EndsAt(records: seq<Record>, k: int, run: RunId) {
    0 <= k < |records| && records[k].event.RunEnded? && records[k].event.run == run
  }

  /** The run started before position `i`, and did not end before it. */
  ghost predicate OpenAt(records: seq<Record>, i: int, run: RunId) {
    (exists k :: k < i && StartsAt(records, k, run)) && forall k | k < i :: !EndsAt(records, k, run)
  }

  /** A run starts once, a child under an open parent of its app; everything else happens in an open run. */
  ghost predicate InOrderAt(records: seq<Record>, i: int)
    requires 0 <= i < |records|
  {
    var e := records[i].event;
    if e.RunStarted? then
      && (forall k | k < i :: !StartsAt(records, k, e.run))
      && (e.parent.Some? ==>
            && OpenAt(records, i, e.parent.value)
            && exists k :: k < i && StartsAt(records, k, e.parent.value) && records[k].event.app == e.app)
    else OpenAt(records, i, e.run)
  }

  ghost predicate OrderlyLedger(records: seq<Record>) {
    forall i | 0 <= i < |records| :: InOrderAt(records, i)
  }

  /** One more record changes nothing about earlier positions. */
  lemma EarlierPositions(records: seq<Record>, r: Record, i: int)
    requires 0 <= i <= |records|
    ensures forall run :: OpenAt(records + [r], i, run) <==> OpenAt(records, i, run)
    ensures i < |records| ==> (InOrderAt(records + [r], i) <==> InOrderAt(records, i))
  {
    var all := records + [r];
    assert forall k, run | k < i ::
        (StartsAt(all, k, run) <==> StartsAt(records, k, run)) && (EndsAt(all, k, run) <==> EndsAt(records, k, run));
    assert forall k | 0 <= k < i :: all[k] == records[k];
  }

  /** The run index of an orderly ledger: which runs there are, whose, and which are open. */
  lemma {:induction false} IndexMeans(records: seq<Record>, run: RunId)
    requires OrderlyLedger(records)
    ensures run in RunsOf(records) <==> exists k :: StartsAt(records, k, run)
    ensures Active(RunsOf(records), run) <==> OpenAt(records, |records|, run)
    ensures forall k | StartsAt(records, k, run) :: run in RunsOf(records) && RunsOf(records)[run].app == records[k].event.app
  {
    if records != [] {
      var n := |records| - 1;
      var first, r := records[..n], records[n];
      assert records == first + [r];
      assert OrderlyLedger(first) by {
        forall i | 0 <= i < n ensures InOrderAt(first, i) {
          assert InOrderAt(records, i);
          EarlierPositions(first, r, i);
        }
      }
      IndexMeans(first, run);
      assert InOrderAt(records, n);
      EarlierPositions(first, r, n);
      LastPosition(first, r, run);
      OneMoreRun(first, r, run);
      forall k | EndsAt(first, k, run) ensures exists j :: StartsAt(first, j, run) {
        assert InOrderAt(first, k) && OpenAt(first, k, run);
      }
    }
  }

  /** How one record in order moves the run between open and ended. */
  lemma OneMoreRun(records: seq<Record>, r: Record, run: RunId)
    requires InOrderAt(records + [r], |records|)
    ensures OpenAt(records + [r], |records| + 1, run) <==>
            || (OpenAt(records, |records|, run) && !(r.event.RunEnded? && r.event.run == run))
            || (r.event.RunStarted? && r.event.run == run && forall k :: !EndsAt(records, k, run))
    ensures (exists k :: StartsAt(records + [r], k, run)) <==>
            (exists k :: StartsAt(records, k, run)) || (r.event.RunStarted? && r.event.run == run)
  {
    LastPosition(records, r, run);
    var all, n := records + [r], |records|;
    if r.event.RunStarted? && r.event.run == run {
      assert StartsAt(all, n, run);
    }
    if k :| StartsAt(records, k, run) {
      assert StartsAt(all, k, run);
    }
    if r.event.RunEnded? && r.event.run == run {
      assert EndsAt(all, n, run);
    }
  }

  lemma LastPosition(records: seq<Record>, r: Record, run: RunId)
    ensures forall k :: StartsAt(records + [r], k, run) <==>
                        StartsAt(records, k, run) || (k == |records| && r.event.RunStarted? && r.event.run == run)
    ensures forall k :: EndsAt(records + [r], k, run) <==>
                        EndsAt(records, k, run) || (k == |records| && r.event.RunEnded? && r.event.run == run)
    ensures forall k | 0 <= k < |records| :: (records + [r])[k] == records[k]
  {
  }

  /** Restoring accepts a ledger exactly if it is orderly at every position. */
  lemma {:induction false} WellFormedIff(records: seq<Record>)
    ensures WellFormed(records) <==> OrderlyLedger(records)
  {
    if records != [] {
      var n := |records| - 1;
      var first, r := records[..n], records[n];
      assert records == first + [r];
      WellFormedIff(first);
      forall i | 0 <= i < n ensures InOrderAt(records, i) <==> InOrderAt(first, i) {
        EarlierPositions(first, r, i);
      }
      EarlierPositions(first, r, n);
      if OrderlyLedger(first) {
        LastInOrder(first, r);
      }
    }
  }

  lemma LastInOrder(records: seq<Record>, r: Record)
    requires OrderlyLedger(records)
    ensures CanAppend(RunsOf(records), r.event) && ParentOk(RunsOf(records), r.event) <==> InOrderAt(records + [r], |records|)
  {
    var e, all, n := r.event, records + [r], |records|;
    EarlierPositions(records, r, n);
    IndexMeans(records, e.run);
    assert forall k, run | k < n :: StartsAt(all, k, run) <==> StartsAt(records, k, run);
    assert forall k | 0 <= k < n :: all[k] == records[k];
    if e.RunStarted? && e.parent.Some? {
      IndexMeans(records, e.parent.value);
    }
  }

  // ----- Manifests and grants -----

  /** The request has a reason and names data soundly, and what it targets is declared wherever its provider is installed. */
  predicate SoundRequest(registry: Registry, app: AppId, q: Request) {
    var scope := q.authority.scope;
    && q.hasReason && WellScoped(q.authority.data)
    && (scope.ExactCapability? && scope.owner in registry ==> scope.cap in registry[scope.owner].caps)
  }

  predicate SoundManifests(registry: Registry) {
    forall a | a in registry ::
      registry[a].app == a && registry[a].schemasOk && forall q | q in registry[a].requests :: SoundRequest(registry, a, q)
  }

  predicate SoundGrants(registry: Registry, b: Broker) {
    && (forall i, j | 0 <= i < j < |b.grants| :: b.grants[i].id != b.grants[j].id)
    && (forall g | g in b.grants :: WellScoped(g.data) && (g.expiresAt.Some? ==> g.issuedAt < g.expiresAt.value))
    && (forall id | id in b.revoked :: exists g :: g in b.grants && g.id == id)
    && (forall g | g in b.grants :: g.id in b.revoked || (g.holder in registry && g.scope.owner in registry))
  }

  // ----- Artifacts -----

  predicate ProducesAt(records: seq<Record>, i: int, a: ArtifactId) {
    0 <= i < |records| && records[i].event.Produced? && records[i].event.artifact == a
  }

  /** A completion closes the block of productions that `i` belongs to. */
  predicate ClosesBlock(records: seq<Record>, i: int, j: int) {
    0 <= i < j < |records| && records[j].event.Completed? && forall k | i < k < j :: records[k].event.Produced?
  }

  /** Some grant vouches: it was issued to the app of the artifact's run, for its capability and the data of the completion. */
  ghost predicate Attested(d: Durable, art: Artifact, j: int, g: Grant)
    requires 0 <= j < |d.records| && d.records[j].event.Completed?
  {
    var done := d.records[j].event;
    && done.run == art.run && done.key.slot.cap == art.cap && done.key.grant == art.grant
    && g in d.broker.grants && g.id == art.grant
    && (exists k :: StartsAt(d.records, k, art.run) && Entitles(g, d.records[k].event.app, done.key.slot))
  }

  ghost predicate SoundArtifact(d: Durable, i: int, a: ArtifactId)
    requires ProducesAt(d.records, i, a)
  {
    && a in d.artifacts
    && var art := d.artifacts[a];
    && art.id == a && art.run == d.records[i].event.run && art.kind == d.records[i].event.kind
    && art.producedBy == art.cap.provider
    && exists j, g :: ClosesBlock(d.records, i, j) && Attested(d, art, j, g)
  }

  ghost predicate SoundArtifacts(d: Durable) {
    && (forall i, j, a | ProducesAt(d.records, i, a) && ProducesAt(d.records, j, a) :: i == j)
    && (forall a | a in d.artifacts :: exists i :: ProducesAt(d.records, i, a))
    && (forall i, a | ProducesAt(d.records, i, a) :: SoundArtifact(d, i, a))
  }

  // ----- All checks together -----

  lemma ManifestsIff(registry: Registry)
    ensures ManifestsOk(registry) && ManifestPass(registry) <==> SoundManifests(registry)
  {
    if ManifestsOk(registry) && ManifestPass(registry) {
      forall a, q | a in registry && q in registry[a].requests ensures SoundRequest(registry, a, q) {
        assert RequestsOk(registry, registry[a], true) && q.authority.data.Valid();
      }
    }
    if SoundManifests(registry) {
      forall a | a in registry ensures registry[a].LocallyValid() && RequestsOk(registry, registry[a], true) {
        forall q | q in registry[a].requests
          ensures q.authority.data.Valid() && q.hasReason && TargetOk(registry, registry[a], q.authority.scope, true)
        {
          assert SoundRequest(registry, a, q);
        }
      }
    }
  }

  lemma GrantsIff(registry: Registry, b: Broker)
    ensures GrantsOk(b) && LiveInstalled(registry, b) <==> SoundGrants(registry, b)
  {
    assert forall g: Grant :: g.Valid() <==> WellScoped(g.data) && (g.expiresAt.Some? ==> g.issuedAt < g.expiresAt.value);
  }

  lemma ClosingBlock(records: seq<Record>, i: nat, j: int)
    requires i < |records|
    ensures ClosesBlock(records, i, j) <==>
            j == NextOther(records, i + 1) && j < |records| && records[j].event.Completed?
  {
    var n := NextOther(records, i + 1);
    assert forall k | 0 <= k < |records| :: records[k].event.Produced? <==> IsProduced(records, k);
    assert n < |records| ==> !records[n].event.Produced?;
    if j == n && j < |records| && records[j].event.Completed? {
      forall k | i < k < j ensures records[k].event.Produced? {
        assert IsProduced(records, k);
      }
    }
  }

  lemma AttestedIff(d: Durable, art: Artifact, j: int, g: Grant)
    requires OrderlyLedger(d.records) && 0 <= j < |d.records| && d.records[j].event.Completed?
    ensures Attested(d, art, j, g) <==> g in d.broker.grants && Vouches(g, RunsOf(d.records), art, d.records[j].event)
  {
    IndexMeans(d.records, art.run);
    var slot := d.records[j].event.key.slot;
    forall app ensures Entitles(g, app, slot) <==> CoversFor(g, app, slot) {
      EntitlesIsCovering(g, app, slot);
    }
  }

  lemma BackedIff(d: Durable, i: nat, a: ArtifactId)
    requires OrderlyLedger(d.records) && ProducesAt(d.records, i, a)
    ensures IsProduced(d.records, i) && (SoundArtifact(d, i, a) <==> Backed(d, i))
  {
    hide Vouches, Attested, NextOther;
    var n := NextOther(d.records, i + 1);
    ClosingBlock(d.records, i, n);
    if a in d.artifacts {
      var art := d.artifacts[a];
      forall j, g | ClosesBlock(d.records, i, j) && Attested(d, art, j, g)
        ensures j == n && g in d.broker.grants && Vouches(g, RunsOf(d.records), art, d.records[j].event)
      {
        ClosingBlock(d.records, i, j);
        AttestedIff(d, art, j, g);
      }
      if n < |d.records| {
        forall g | g in d.broker.grants && Vouches(g, RunsOf(d.records), art, d.records[n].event)
          ensures ClosesBlock(d.records, i, n) && Attested(d, art, n, g)
        {
          VouchesCompletion(g, RunsOf(d.records), art, d.records[n].event);
          AttestedIff(d, art, n, g);
        }
      }
    }
  }

  lemma VouchesCompletion(g: Grant, runs: RunIndex, art: Artifact, e: Event)
    requires Vouches(g, runs, art, e)
    ensures e.Completed?
  {
  }

  lemma ArtifactsIff(d: Durable)
    requires OrderlyLedger(d.records)
    ensures SoundArtifacts(d) <==> ProducedOnce(d.records) && ProducedIds(d.records) == d.artifacts.Keys && AllBacked(d)
  {
    hide Backed, SoundArtifact;
    forall i: nat, a | ProducesAt(d.records, i, a) ensures IsProduced(d.records, i) && (SoundArtifact(d, i, a) <==> Backed(d, i)) {
      BackedIff(d, i, a);
    }
    forall i: nat | IsProduced(d.records, i) ensures ProducesAt(d.records, i, d.records[i].event.artifact) {
    }
    if SoundArtifacts(d) {
      forall a | a in ProducedIds(d.records) ensures a in d.artifacts {
        var i :| 0 <= i < |d.records| && IsProduced(d.records, i) && d.records[i].event.artifact == a;
        assert ProducesAt(d.records, i, a) && SoundArtifact(d, i, a);
        SoundIsStored(d, i, a);
      }
      forall a | a in d.artifacts ensures a in ProducedIds(d.records) {
        var i :| ProducesAt(d.records, i, a);
        assert IsProduced(d.records, i);
      }
    }
    if ProducedOnce(d.records) && ProducedIds(d.records) == d.artifacts.Keys && AllBacked(d) {
      forall a | a in d.artifacts ensures exists i :: ProducesAt(d.records, i, a) {
        assert a in ProducedIds(d.records);
        var i :| 0 <= i < |d.records| && IsProduced(d.records, i) && d.records[i].event.artifact == a;
        assert ProducesAt(d.records, i, a);
      }
    }
  }

  lemma SoundIsStored(d: Durable, i: int, a: ArtifactId)
    requires ProducesAt(d.records, i, a) && SoundArtifact(d, i, a)
    ensures a in d.artifacts
  {
  }

  /**
    A restart accepts a stored state exactly if every manifest is sound against those
    installed, the ledger is orderly and its action records pair up, the grants are sound and
    live ones have installed apps, and artifacts and their production records correspond one
    to one, each closed by a completion that a grant of the run's own app attests.
   */
  lemma BootableIff(d: Durable)
    ensures Bootable(d) <==>
            && SoundManifests(d.registry) && OrderlyLedger(d.records) && Replay(d.records).Some?
            && SoundGrants(d.registry, d.broker) && SoundArtifacts(d)
  {
    hide ManifestsOk, ManifestPass, GrantsOk, LiveInstalled, SoundManifests, SoundGrants, SoundArtifacts, OrderlyLedger, WellFormed,
         ProducedOnce, ProducedIds, AllBacked, Replay;
    ManifestsIff(d.registry);
    GrantsIff(d.registry, d.broker);
    WellFormedIff(d.records);
    if OrderlyLedger(d.records) {
      ArtifactsIff(d);
    }
  }

  // ----- What a restart adds -----

  /** A closing record: a cancellation in a run that was open, or the interrupted end of one. */
  ghost predicate Closes(records: seq<Record>, r: Record) {
    r.inv == 0 && OpenAt(records, |records|, r.event.run) && (r.event.Cancelled? || r.event == RunEnded(r.event.run, RunInterrupted))
  }

  lemma ClosersCancel(m: Replayed, order: seq<RunId>)
    requires forall r | r in order :: r in m
    ensures forall r | r in Closers(m, order) :: r.event.Cancelled? && r.inv == 0
    decreases |order|
  {
    if order != [] {
      ClosersCancel(m, order[1..]);
    }
  }

  /**
    A restart that succeeds keeps the stored records and adds only closing records of runs that
    were open, with one interrupted end for each of them, last.
   */
  lemma RestartAppends(d: Durable, script: seq<CommitOutcome>, nextId: nat)
    requires Restorable(d) && Below(d, nextId) && Boot(d, script, nextId).1
    ensures var records, n := Boot(d, script, nextId).0.ledger.records, |d.records|;
            && n <= |records| && records[..n] == Untag(d.records)
            && (forall k | n <= k < |records| :: Closes(d.records, records[k]))
            && (forall run | OpenAt(d.records, n, run) :: Record(RunEnded(run, RunInterrupted), 0) in records[n..])
            && (forall j, k | n <= j < k < |records| && records[j].event.RunEnded? ::
                  records[k].event.RunEnded? && records[k].event.run != records[j].event.run)
  {
    hide Restorable, Below, Replay, Closers, ManifestPass;
    var records := Boot(d, script, nextId).0.ledger.records;
    WellFormedWhenRestorable(d);
    WellFormedIff(d.records);
    RunsBelow(d, nextId);
    UntagRuns(d.records);
    var runs, m := RunsOf(d.records), Replay(d.records).value;
    forall run ensures Active(runs, run) <==> OpenAt(d.records, |d.records|, run) {
      IndexMeans(d.records, run);
    }
    assert forall run :: Active(runs, run) <==> run in AllActive(runs);
    if AllActive(runs) != {} {
      var listed, active := InOrder(m.Keys, nextId), InOrder(AllActive(runs), nextId);
      var cs, es := Closers(m, listed), Ends(active, RunInterrupted);
      EndedRunsAreSettled(d.records);
      ClosersQuiet(runs, m, listed);
      ClosersCancel(m, listed);
      assert records == Untag(d.records) + (cs + es);
      AppendedBatch(d.records, Untag(d.records), cs, active, runs);
    }
  }

  lemma AppendedBatch(stored: seq<Record>, before: seq<Record>, cs: seq<Record>, active: seq<RunId>, runs: RunIndex)
    requires |before| == |stored| && Quiet(runs, cs) && Distinct(active)
    requires forall c | c in cs :: c.event.Cancelled? && c.inv == 0
    requires forall run :: run in active <==> Active(runs, run)
    requires forall run :: Active(runs, run) <==> OpenAt(stored, |stored|, run)
    ensures var records, n := before + (cs + Ends(active, RunInterrupted)), |before|;
            && records[..n] == before
            && (forall k | n <= k < |records| :: Closes(stored, records[k]))
            && (forall run | run in active :: Record(RunEnded(run, RunInterrupted), 0) in records[n..])
            && (forall j, k | n <= j < k < |records| && records[j].event.RunEnded? ::
                  records[k].event.RunEnded? && records[k].event.run != records[j].event.run)
  {
    var es := Ends(active, RunInterrupted);
    var records, n := before + (cs + es), |before|;
    assert records[n..] == cs + es;
    forall k | n <= k < |records| ensures Closes(stored, records[k]) {
      if k - n < |cs| {
        assert records[k] == cs[k - n] && cs[k - n] in cs;
      } else {
        assert records[k] == es[k - n - |cs|] && active[k - n - |cs|] in active;
      }
    }
    forall run | run in active ensures Record(RunEnded(run, RunInterrupted), 0) in records[n..] {
      var i :| 0 <= i < |active| && active[i] == run;
      assert es[i] in es && records[n..][|cs| + i] == es[i];
    }
    EndsComeLast(before, cs, active);
  }

  lemma EndsComeLast(before: seq<Record>, cs: seq<Record>, active: seq<RunId>)
    requires Distinct(active) && forall c | c in cs :: c.event.Cancelled?
    ensures var records, n := before + (cs + Ends(active, RunInterrupted)), |before|;
            forall j, k | n <= j < k < |records| && records[j].event.RunEnded? ::
              records[k].event.RunEnded? && records[k].event.run != records[j].event.run
  {
    var es := Ends(active, RunInterrupted);
    var records, n := before + (cs + es), |before| + |cs|;
    forall j | |before| <= j < |records| ensures records[j].event.RunEnded? <==> n <= j {
      if j < n {
        assert records[j] == cs[j - |before|] && cs[j - |before|] in cs;
      } else {
        assert records[j] == es[j - n];
      }
    }
    assert forall j | n <= j < |records| :: records[j].event.run == active[j - n];
  }
}
