/**
  The restart's passes over the stored state, as the loops they are: the ledger is
  restored record by record, manifests are checked again, production records are
  indexed, every artifact is checked against the index and every live grant against
  the registry.
 */
module RecoveryCheck {
  import opened Basics
  import opened Domain
  import opened Ledger
  import opened Broker
  import opened ActionLog
  import opened KernelState
  import opened Lifecycle
  import opened Provenance
  import opened Recovery

  type Index = map<ArtifactId, nat>

  /** The index holds exactly the production records among the first `n`. */
  ghost predicate Indexes(records: seq<Record>, n: nat, produced: Index) {
    && n <= |records|
    && (forall a | a in produced ::
          produced[a] < n && IsProduced(records, produced[a]) && records[produced[a]].event.artifact == a)
    && (forall i | 0 <= i < n && IsProduced(records, i) ::
          records[i].event.artifact in produced && produced[records[i].event.artifact] == i)
  }

  method IndexProductions(records: seq<Record>) returns (produced: Option<Index>)
    ensures produced.Some? <==> ProducedOnce(records)
    ensures produced.Some? ==> Indexes(records, |records|, produced.value)
  {
    var index: Index := map[];
    for n := 0 to |records|
      invariant Indexes(records, n, index)
      invariant forall i, j | 0 <= i < j < n && IsProduced(records, i) && IsProduced(records, j) ::
                  records[i].event.artifact != records[j].event.artifact
    {
      var e := records[n].event;
      if e.Produced? {
        if e.artifact in index {
          assert IsProduced(records, index[e.artifact]) && IsProduced(records, n);
          return None;
        }
        index := index[e.artifact := n];
      }
    }
    return Some(index);
  }

  method FindGrant(grants: seq<Grant>, id: GrantId) returns (g: Option<Grant>)
    ensures g.Some? ==> g.value in grants && g.value.id == id
    ensures g.None? ==> forall x | x in grants :: x.id != id
  {
    for i := 0 to |grants|
      invariant forall k | 0 <= k < i :: grants[k].id != id
    {
      if grants[i].id == id {
        return Some(grants[i]);
      }
    }
    return None;
  }

  /** The first record from `i` on that is not a production record. */
  method SkipProductions(records: seq<Record>, i: nat) returns (j: nat)
    requires i <= |records|
    ensures j == NextOther(records, i)
  {
    j := i;
    while j < |records| && records[j].event.Produced?
      invariant i <= j <= |records|
      invariant NextOther(records, j) == NextOther(records, i)
    {
      j := j + 1;
    }
  }

  method CheckArtifact(d: Durable, art: Artifact, i: nat) returns (ok: bool)
    requires GrantsOk(d.broker) && IsProduced(d.records, i) && d.records[i].event.artifact == art.id
    requires art.id in d.artifacts && d.artifacts[art.id] == art
    ensures ok <==> Backed(d, i)
  {
    var e := d.records[i].event;
    if e.run != art.run || e.kind != art.kind || art.producedBy != art.cap.provider {
      return false;
    }
    var found := FindGrant(d.broker.grants, art.grant);
    var runs := RunsOf(d.records);
    var j := SkipProductions(d.records, i + 1);
    if found.None? {
      return false;
    }
    var g := found.value;
    OnlyGrant(d, g);
    ok := j < |d.records| && Vouches(g, runs, art, d.records[j].event);
  }

  lemma OnlyGrant(d: Durable, g: Grant)
    requires GrantsOk(d.broker) && g in d.broker.grants
    ensures forall x | x in d.broker.grants && x.id == g.id :: x == g
  {
    forall x | x in d.broker.grants && x.id == g.id ensures x == g {
      var i :| 0 <= i < |d.broker.grants| && d.broker.grants[i] == x;
      var j :| 0 <= j < |d.broker.grants| && d.broker.grants[j] == g;
    }
  }

  method CheckLiveGrants(registry: Registry, b: Broker) returns (ok: bool)
    ensures ok <==> LiveInstalled(registry, b)
  {
    for i := 0 to |b.grants|
      invariant forall k | 0 <= k < i && b.grants[k].id !in b.revoked ::
                  b.grants[k].holder in registry && b.grants[k].scope.owner in registry
    {
      var g := b.grants[i];
      if g.id !in b.revoked && (g.holder !in registry || g.scope.owner !in registry) {
        return false;
      }
    }
    return true;
  }

  lemma IndexedIds(records: seq<Record>, produced: Index)
    requires Indexes(records, |records|, produced)
    ensures produced.Keys == ProducedIds(records)
  {
  }

  lemma {:induction false} SameSize<T>(a: set<T>, b: set<T>)
    requires a <= b && |a| == |b|
    ensures a == b
  {
    assert b == a + (b - a);
    assert |b - a| == |b| - |a|;
  }

  /** Accepting a stored state means exactly that its provenance is in order. */
  method ValidateRecoveredState(d: Durable) returns (ok: bool)
    requires GrantsOk(d.broker) && forall a | a in d.artifacts :: d.artifacts[a].id == a
    ensures ok <==> Validated(d)
  {
    var index := IndexProductions(d.records);
    if index.None? {
      return false;
    }
    var produced := index.value;
    IndexedIds(d.records, produced);
    if |produced.Keys| != |d.artifacts.Keys| {
      return false;
    }
    var todo := d.artifacts.Keys;
    while todo != {}
      invariant todo <= d.artifacts.Keys
      invariant forall a | a in d.artifacts && a !in todo :: a in produced && Backed(d, produced[a])
      decreases todo
    {
      var a :| a in todo;
      if a !in produced {
        return false;
      }
      var backed := CheckArtifact(d, d.artifacts[a], produced[a]);
      if !backed {
        return false;
      }
      todo := todo - {a};
    }
    SameSize(d.artifacts.Keys, produced.Keys);
    assert AllBacked(d) by {
      forall i: nat | IsProduced(d.records, i) ensures Backed(d, i) {
        assert produced[d.records[i].event.artifact] == i;
      }
    }
    ok := CheckLiveGrants(d.registry, d.broker);
  }

  // ----- The whole stored state -----

  lemma {:induction false} PrefixWellFormed(records: seq<Record>, n: nat)
    requires WellFormed(records) && n <= |records|
    ensures WellFormed(records[..n])
    decreases |records|
  {
    if n == |records| {
      assert records[..n] == records;
    } else {
      assert records[..|records| - 1][..n] == records[..n];
      PrefixWellFormed(records[..|records| - 1], n);
    }
  }

  /** The ledger is restored exactly if its records are well-formed and can be paired up. */
  method RestoreLedger(records: seq<Record>) returns (runs: Option<RunIndex>, actions: Replayed)
    ensures runs.Some? <==> WellFormed(records) && Replay(records).Some?
    ensures runs.Some? ==> runs.value == RunsOf(records) && Replay(records) == Some(actions)
  {
    var index: RunIndex := map[];
    for n := 0 to |records|
      invariant WellFormed(records[..n]) && index == RunsOf(records[..n])
    {
      var e := records[n].event;
      assert records[..n + 1][..n] == records[..n];
      if !ParentOk(index, e) || !CanAppend(index, e) {
        if WellFormed(records) {
          PrefixWellFormed(records, n + 1);
        }
        return None, map[];
      }
      index := IndexEvent(index, e);
    }
    assert records[..|records|] == records;
    var replayed := ReplayActionState(records);
    if replayed.None? {
      return None, map[];
    }
    return Some(index), replayed.value;
  }

  method CheckManifests(registry: Registry) returns (ok: bool)
    ensures ok <==> ManifestPass(registry)
  {
    var todo := registry.Keys;
    while todo != {}
      invariant todo <= registry.Keys
      invariant forall a | a in registry && a !in todo :: RequestsOk(registry, registry[a], true)
      decreases todo
    {
      var a :| a in todo;
      if !RequestsOk(registry, registry[a], true) {
        return false;
      }
      todo := todo - {a};
    }
    return true;
  }

  lemma MisfiledIsInvalid(d: Durable, a: ArtifactId)
    requires a in d.artifacts && d.artifacts[a].id != a
    ensures !Validated(d)
  {
  }

  /** All checks of a restart: it accepts exactly the states that can be booted. */
  method CheckStored(d: Durable) returns (runs: Option<RunIndex>, actions: Replayed)
    ensures runs.Some? <==> Bootable(d)
    ensures runs.Some? ==> runs.value == RunsOf(d.records) && Replay(d.records) == Some(actions)
  {
    hide Validated, ManifestPass, GrantsOk, ManifestsOk;
    runs, actions := RestoreLedger(d.records);
    if runs.None? || !ManifestsOk(d.registry) || !GrantsOk(d.broker) {
      return None, map[];
    }
    if a :| a in d.artifacts && d.artifacts[a].id != a {
      MisfiledIsInvalid(d, a);
      return None, map[];
    }
    var manifests := CheckManifests(d.registry);
    var valid := ValidateRecoveredState(d);
    if !manifests || !valid {
      runs := None;
    }
  }
}
