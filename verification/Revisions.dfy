/**
  The revisions of an app that are kept: the active one and the newest other.
 */
module Revisions {
  type RevisionId = nat

  datatype Revision = Revision(id: RevisionId, installedAt: nat)

  const RETAINED_REVISIONS := 2

  predicate Sorted(rs: seq<Revision>) {
    forall i, j | 0 <= i < j < |rs| :: rs[i].installedAt <= rs[j].installedAt
  }

  predicate SameElements(a: seq<Revision>, b: seq<Revision>) {
    |a| == |b| && multiset(a) == multiset(b)
  }

  /** Where a revision goes among sorted ones: after all that are not newer. */
  function Place(rs: seq<Revision>, r: Revision): (p: nat)
    requires Sorted(rs)
    ensures p <= |rs| && (forall i | p <= i < |rs| :: rs[i].installedAt > r.installedAt)
    ensures p > 0 ==> rs[p - 1].installedAt <= r.installedAt
  {
    if rs == [] || rs[|rs| - 1].installedAt <= r.installedAt then |rs| else Place(rs[..|rs| - 1], r)
  }

  function Insert(rs: seq<Revision>, r: Revision, p: nat): seq<Revision>
    requires p <= |rs|
  {
    rs[..p] + [r] + rs[p..]
  }

  lemma InsertAdds(rs: seq<Revision>, r: Revision, p: nat)
    requires p <= |rs|
    ensures multiset(Insert(rs, r, p)) == multiset(rs) + multiset{r} && |Insert(rs, r, p)| == |rs| + 1
  {
    assert rs == rs[..p] + rs[p..];
  }

  lemma OneMore(rs: seq<Revision>, i: nat)
    requires i < |rs|
    ensures multiset(rs[..i + 1]) == multiset(rs[..i]) + multiset{rs[i]}
  {
    assert rs[..i + 1] == rs[..i] + [rs[i]];
  }

  lemma InsertSorted(rs: seq<Revision>, r: Revision)
    requires Sorted(rs)
    ensures Sorted(Insert(rs, r, Place(rs, r)))
  {
    var p := Place(rs, r);
    var t := Insert(rs, r, p);
    forall i, j | 0 <= i < j < |t| ensures t[i].installedAt <= t[j].installedAt {
      assert t[i] == if i < p then rs[i] else if i == p then r else rs[i - 1];
      assert t[j] == if j < p then rs[j] else if j == p then r else rs[j - 1];
      assert i < p ==> rs[i].installedAt <= rs[p - 1].installedAt;
    }
  }

  method SortByInstallTime(rs: seq<Revision>) returns (sorted: seq<Revision>)
    ensures Sorted(sorted) && SameElements(sorted, rs)
  {
    sorted := [];
    for i := 0 to |rs|
      invariant Sorted(sorted) && |sorted| == i && multiset(sorted) == multiset(rs[..i])
    {
      hide Insert, Sorted;
      var p := Place(sorted, rs[i]);
      InsertAdds(sorted, rs[i], p);
      InsertSorted(sorted, rs[i]);
      OneMore(rs, i);
      sorted := Insert(sorted, rs[i], p);
    }
    assert rs[..|rs|] == rs;
  }

  predicate Has(rs: seq<Revision>, id: RevisionId) {
    exists r | r in rs :: r.id == id
  }

  /** No other revision than the active one is newer. */
  predicate NewestOther(rs: seq<Revision>, active: RevisionId, r: Revision) {
    r in rs && r.id != active && forall x | x in rs && x.id != active :: x.installedAt <= r.installedAt
  }

  /**
    What is kept: nothing new, at most two of more than two, the active revision if it
    was there, and the newest of the others.
   */
  ghost predicate Retains(before: seq<Revision>, after: seq<Revision>, active: RevisionId) {
    && Sorted(after) && (forall r | r in after :: r in before)
    && (|before| <= RETAINED_REVISIONS ==> SameElements(after, before))
    && (|before| > RETAINED_REVISIONS ==> |after| <= RETAINED_REVISIONS)
    && (Has(before, active) <==> Has(after, active))
    && ((exists r | r in before :: r.id != active) ==> exists r :: NewestOther(before, active, r) && r in after)
  }

  method FindLast(rs: seq<Revision>, id: RevisionId) returns (found: seq<Revision>)
    ensures found == [] <==> !Has(rs, id)
    ensures found != [] ==> |found| == 1 && found[0] in rs && found[0].id == id
  {
    var i := |rs|;
    while i > 0
      invariant 0 <= i <= |rs| && forall k | i <= k < |rs| :: rs[k].id != id
    {
      i := i - 1;
      if rs[i].id == id {
        return [rs[i]];
      }
    }
    return [];
  }

  /** Fill up from the newest, one revision per id. */
  method TakeNewest(sorted: seq<Revision>, first: seq<Revision>, active: RevisionId) returns (kept: seq<Revision>)
    requires Sorted(sorted) && |first| <= 1 && (forall r | r in first :: r in sorted && r.id == active)
    requires Has(sorted, active) <==> first != []
    ensures |kept| <= RETAINED_REVISIONS && (forall r | r in kept :: r in sorted)
    ensures Has(sorted, active) <==> Has(kept, active)
    ensures (exists r | r in sorted :: r.id != active) ==> exists r :: NewestOther(sorted, active, r) && r in kept
  {
    kept := first;
    assert first != [] ==> first[0] in kept && Has(kept, active);
    var i := |sorted|;
    ghost var newest: seq<Revision> := [];
    while i > 0 && |kept| < RETAINED_REVISIONS
      invariant 0 <= i <= |sorted| && first <= kept && |kept| <= RETAINED_REVISIONS
      invariant forall r | r in kept :: r in sorted
      invariant newest == [] ==> kept == first && forall k | i <= k < |sorted| :: sorted[k].id == active
      invariant newest != [] ==> |newest| == 1 && newest[0] in kept && NewestOther(sorted, active, newest[0])
    {
      i := i - 1;
      var r := sorted[i];
      if Has(kept, r.id) {
        continue;
      }
      if newest == [] && r.id != active {
        assert forall x | x in sorted && x.id != active :: x.installedAt <= r.installedAt by {
          forall x | x in sorted && x.id != active ensures x.installedAt <= r.installedAt {
            var k :| 0 <= k < |sorted| && sorted[k] == x;
          }
        }
        newest := [r];
      }
      kept := kept + [r];
    }
    assert first != [] ==> first[0] in kept;
    if newest == [] && (exists r | r in sorted :: r.id != active) {
      assert i == 0;
    }
  }

  method RetainRecentRevisions(revisions: seq<Revision>, active: RevisionId) returns (kept: seq<Revision>)
    ensures Retains(revisions, kept, active)
  {
    kept := SortByInstallTime(revisions);
    SameMembers(kept, revisions);
    if |kept| <= RETAINED_REVISIONS {
      NewestExists(kept, active);
      return;
    }
    var sorted := kept;
    var first := FindLast(sorted, active);
    var chosen := TakeNewest(sorted, first, active);
    kept := SortByInstallTime(chosen);
    SameMembers(kept, chosen);
  }

  lemma SameMembers(a: seq<Revision>, b: seq<Revision>)
    requires SameElements(a, b)
    ensures forall r :: r in a <==> r in b
  {
    forall r ensures r in a <==> r in b {
      assert r in a <==> r in multiset(a);
    }
  }

  lemma {:induction false} NewestExists(sorted: seq<Revision>, active: RevisionId)
    requires Sorted(sorted)
    ensures (exists r | r in sorted :: r.id != active) ==> exists r :: NewestOther(sorted, active, r)
  {
    if sorted != [] {
      var n := |sorted| - 1;
      if sorted[n].id != active {
        assert NewestOther(sorted, active, sorted[n]);
      } else if exists r | r in sorted :: r.id != active {
        NewestExists(sorted[..n], active);
        var r :| NewestOther(sorted[..n], active, r);
        assert NewestOther(sorted, active, r);
      }
    }
  }
}
