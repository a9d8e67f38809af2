/**
  What a restart demands of the stored state, apart from pairing up action
  records: sound manifests, a well-formed ledger, valid grants, and artifacts whose
  provenance the ledger and the grants vouch for.
 */
module Provenance {
  import opened Domain
  import opened Ledger
  import opened Broker
  import opened KernelState

  predicate ManifestsOk(registry: Registry) {
    forall a | a in registry :: registry[a].app == a && registry[a].LocallyValid()
  }

  predicate GrantsOk(b: Broker) {
    && (forall g | g in b.grants :: g.Valid())
    && (forall i, j | 0 <= i < j < |b.grants| :: b.grants[i].id != b.grants[j].id)
    && (forall id | id in b.revoked :: exists g :: g in b.grants && g.id == id)
  }

  /** Live grants have an installed holder and an installed provider. */
  predicate LiveInstalled(registry: Registry, b: Broker) {
    forall g | g in b.grants && g.id !in b.revoked :: g.holder in registry && g.scope.owner in registry
  }

  predicate IsProduced(records: seq<Record>, i: int) {
    0 <= i < |records| && records[i].event.Produced?
  }

  predicate ProducedOnce(records: seq<Record>) {
    forall i, j | 0 <= i < j < |records| && IsProduced(records, i) && IsProduced(records, j) ::
      records[i].event.artifact != records[j].event.artifact
  }

  function ProducedIds(records: seq<Record>): set<ArtifactId> {
    set i | 0 <= i < |records| && IsProduced(records, i) :: records[i].event.artifact
  }

  /** The first record from position `i` on that is not a production record. */
  function NextOther(records: seq<Record>, i: nat): (j: nat)
    ensures i <= j && (i <= |records| ==> j <= |records|)
    ensures forall k | i <= k < j :: IsProduced(records, k)
    ensures i <= j < |records| ==> !IsProduced(records, j)
    decreases |records| - i
  {
    if i < |records| && records[i].event.Produced? then NextOther(records, i + 1) else i
  }

  /** The grant covers the artifact's run and capability, and the completion that follows it. */
  predicate Vouches(g: Grant, runs: RunIndex, art: Artifact, completion: Event) {
    && g.id == art.grant
    && art.run in runs && g.holder == runs[art.run].app
    && g.scope.Covers(art.cap)
    && completion.Completed? && completion.run == art.run
    && completion.key.slot.cap == art.cap && completion.key.grant == art.grant
    && g.data.Covers(completion.key.slot.data)
  }

  /** The production record at `i` agrees with its artifact, and its block ends in a matching completion. */
  predicate Backed(d: Durable, i: nat)
    requires IsProduced(d.records, i)
  {
    var e := d.records[i].event;
    var j := NextOther(d.records, i + 1);
    && e.artifact in d.artifacts
    && (var art := d.artifacts[e.artifact];
        && art.id == e.artifact && art.run == e.run && art.kind == e.kind
        && art.producedBy == art.cap.provider
        && j < |d.records|
        && exists g :: g in d.broker.grants && Vouches(g, RunsOf(d.records), art, d.records[j].event))
  }

  predicate AllBacked(d: Durable) {
    forall i | 0 <= i < |d.records| && IsProduced(d.records, i) :: Backed(d, i)
  }

  /** The checks of validating a recovered state. */
  predicate Validated(d: Durable) {
    && ProducedOnce(d.records)
    && ProducedIds(d.records) == d.artifacts.Keys
    && AllBacked(d)
    && LiveInstalled(d.registry, d.broker)
  }

  predicate Restorable(d: Durable) {
    ManifestsOk(d.registry) && WellFormed(d.records) && GrantsOk(d.broker) && Validated(d)
  }

  /** Ids in use were drawn before `n`. */
  predicate Below(d: Durable, n: nat) {
    && IdsBelow(d.broker, n)
    && (forall r | r in RunsOf(d.records) :: r < n)
    && (forall a | a in d.artifacts :: a < n)
  }

  // ----- Appending records -----

  /** Runs are never lost and never change hands. */
  predicate Grows(runs: RunIndex, runs': RunIndex) {
    forall r | r in runs :: r in runs' && runs'[r].app == runs[r].app
  }

  lemma {:induction false} AppendAllGrows(l: RunLedger, rs: seq<Record>)
    requires AppendAll(l, rs).Some?
    ensures Grows(l.runs, AppendAll(l, rs).value.runs)
    decreases |rs|
  {
    if rs != [] {
      AppendAllGrows(Append(l, rs[0]), rs[1..]);
    }
  }

  lemma {:induction false} NextOtherAppend(records: seq<Record>, rs: seq<Record>, i: nat)
    requires NextOther(records, i) < |records|
    ensures NextOther(records + rs, i) == NextOther(records, i)
    decreases |records| - i
  {
    if records[i].event.Produced? {
      NextOtherAppend(records, rs, i + 1);
    }
  }

  lemma BackedAppend(d: Durable, d': Durable, rs: seq<Record>, i: nat)
    requires IsProduced(d.records, i) && Backed(d, i)
    requires d'.records == d.records + rs && Grows(RunsOf(d.records), RunsOf(d'.records))
    requires forall g | g in d.broker.grants :: g in d'.broker.grants
    requires forall a | a in d.artifacts :: a in d'.artifacts && d'.artifacts[a] == d.artifacts[a]
    ensures IsProduced(d'.records, i) && Backed(d', i)
  {
    NextOtherAppend(d.records, rs, i + 1);
    var j := NextOther(d.records, i + 1);
    var art := d.artifacts[d.records[i].event.artifact];
    var g :| g in d.broker.grants && Vouches(g, RunsOf(d.records), art, d.records[j].event);
    assert Vouches(g, RunsOf(d'.records), art, d'.records[j].event);
  }

  /** Records other than production records never disturb what was validated. */
  lemma ValidatedAppend(d: Durable, d': Durable, rs: seq<Record>)
    requires Validated(d) && LiveInstalled(d'.registry, d'.broker)
    requires d'.records == d.records + rs && Grows(RunsOf(d.records), RunsOf(d'.records))
    requires forall r | r in rs :: !r.event.Produced?
    requires forall g | g in d.broker.grants :: g in d'.broker.grants
    requires d'.artifacts == d.artifacts
    ensures Validated(d')
  {
    QuietProductions(d.records, rs);
    forall i | IsProduced(d'.records, i) ensures Backed(d', i) {
      BackedAppend(d, d', rs, i);
    }
  }

  lemma QuietProductions(records: seq<Record>, rs: seq<Record>)
    requires forall r | r in rs :: !r.event.Produced?
    ensures forall i :: IsProduced(records + rs, i) <==> IsProduced(records, i)
    ensures ProducedOnce(records) ==> ProducedOnce(records + rs)
    ensures ProducedIds(records + rs) == ProducedIds(records)
  {
    forall i ensures IsProduced(records + rs, i) <==> IsProduced(records, i) {
      if |records| <= i < |records + rs| {
        assert (records + rs)[i] in rs;
      }
    }
    assert forall i | IsProduced(records, i) :: (records + rs)[i] == records[i];
    assert ProducedIds(records + rs) == ProducedIds(records);
  }
}
