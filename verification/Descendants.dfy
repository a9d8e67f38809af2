/**
  The runs a chat run caused, directly or through other runs: computed by passing
  over the ledger until nothing is added.
 */
module Descendants {
  import opened Basics
  import opened Domain
  import opened Ledger

  /** The record starts run `child` under run `parent`. */
  predicate Starts(r: Record, parent: RunId, child: RunId) {
    r.event.RunStarted? && r.event.run == child && r.event.parent == Some(parent)
  }

  ghost predicate ChildOf(records: seq<Record>, parent: RunId, child: RunId) {
    exists i :: 0 <= i < |records| && Starts(records[i], parent, child)
  }

  /** A path from run to child run. */
  ghost predicate Chain(records: seq<Record>, path: seq<RunId>) {
    |path| <= 1 ||
    (var n := |path| - 1; Chain(records, path[..n]) && ChildOf(records, path[n - 1], path[n]))
  }

  /** The reflexive and transitive closure of "started by". */
  ghost predicate Descends(records: seq<Record>, root: RunId, run: RunId) {
    exists path: seq<RunId> :: path != [] && path[0] == root && path[|path| - 1] == run && Chain(records, path)
  }

  lemma DescendsStep(records: seq<Record>, root: RunId, i: nat)
    requires i < |records| && records[i].event.RunStarted? && records[i].event.parent.Some?
    requires Descends(records, root, records[i].event.parent.value)
    ensures Descends(records, root, records[i].event.run)
  {
    var parent, run := records[i].event.parent.value, records[i].event.run;
    var path: seq<RunId> :| path != [] && path[0] == root && path[|path| - 1] == parent && Chain(records, path);
    var longer := path + [run];
    assert longer[..|path|] == path && Starts(records[i], parent, run);
  }

  /** Nothing in the records adds to the set. */
  predicate Saturated(records: seq<Record>, ids: set<RunId>) {
    forall i | 0 <= i < |records| && records[i].event.RunStarted? && records[i].event.parent.Some? ::
      records[i].event.parent.value in ids ==> records[i].event.run in ids
  }

  lemma {:induction false} SaturatedHoldsPaths(records: seq<Record>, ids: set<RunId>, path: seq<RunId>)
    requires Saturated(records, ids) && path != [] && path[0] in ids && Chain(records, path)
    ensures path[|path| - 1] in ids
  {
    if |path| > 1 {
      var n := |path| - 1;
      SaturatedHoldsPaths(records, ids, path[..n]);
      var i :| 0 <= i < |records| && Starts(records[i], path[n - 1], path[n]);
      assert records[i].event.parent.value in ids;
    }
  }

  lemma SaturatedIsClosure(records: seq<Record>, root: RunId, ids: set<RunId>)
    requires Saturated(records, ids) && root in ids && forall r | r in ids :: Descends(records, root, r)
    ensures forall r :: r in ids <==> Descends(records, root, r)
  {
    forall r | Descends(records, root, r) ensures r in ids {
      var path: seq<RunId> :| path != [] && path[0] == root && path[|path| - 1] == r && Chain(records, path);
      SaturatedHoldsPaths(records, ids, path);
    }
  }

  // ----- One pass, and passes until nothing changes -----

  function Include(ids: set<RunId>, e: Event): set<RunId> {
    if e.RunStarted? && e.parent.Some? && e.parent.value in ids then ids + {e.run} else ids
  }

  function Pass(records: seq<Record>, ids: set<RunId>): set<RunId> {
    if records == [] then ids
    else Include(Pass(records[..|records| - 1], ids), records[|records| - 1].event)
  }

  /** No more passes than there are runs, and the result is exactly the closure. */
  method DescendantRunIds(records: seq<Record>, root: RunId) returns (ids: set<RunId>)
    ensures forall r :: r in ids <==> Descends(records, root, r)
  {
    ids := {root};
    assert Descends(records, root, root) by {
      assert Chain(records, [root]) && [root][0] == root;
    }
    ghost var all := {root} + set i | 0 <= i < |records| :: records[i].event.run;
    var changed := true;
    while changed
      invariant root in ids && ids <= all && (!changed ==> Saturated(records, ids))
      invariant forall r | r in ids :: Descends(records, root, r)
      decreases all - ids, changed
    {
      changed := false;
      ghost var before := ids;
      for i := 0 to |records|
        invariant root in ids && before <= ids <= all && (changed <==> ids != before)
        invariant forall r | r in ids :: Descends(records, root, r)
        invariant !changed ==> Saturated(records[..i], ids)
      {
        var e := records[i].event;
        assert records[..i + 1] == records[..i] + [records[i]];
        if e.RunStarted? && e.parent.Some? && e.parent.value in ids && e.run !in ids {
          DescendsStep(records, root, i);
          ids := ids + {e.run};
          changed := true;
        }
      }
      assert records[..|records|] == records;
    }
    SaturatedIsClosure(records, root, ids);
  }

  // ----- Ledgers the kernel wrote -----

  lemma {:induction false} ParentsKnown(records: seq<Record>, i: nat)
    requires WellFormed(records) && i < |records| && records[i].event.RunStarted? && records[i].event.parent.Some?
    ensures records[i].event.parent.value in RunsOf(records)
  {
    var n := |records| - 1;
    if i < n {
      ParentsKnown(records[..n], i);
    }
  }

  lemma {:induction false} PassKnown(records: seq<Record>, root: RunId)
    requires WellFormed(records)
    ensures root in Pass(records, {root}) && Pass(records, {root}) <= RunsOf(records).Keys + {root}
  {
    if records != [] {
      PassKnown(records[..|records| - 1], root);
    }
  }

  /** Parents start before their children, so one pass already finds every descendant. */
  lemma {:induction false} OnePassSuffices(records: seq<Record>, root: RunId)
    requires WellFormed(records)
    ensures Saturated(records, Pass(records, {root}))
    ensures forall r | r in Pass(records, {root}) :: Descends(records, root, r)
  {
    assert Descends(records, root, root) by {
      assert Chain(records, [root]) && [root][0] == root;
    }
    if records != [] {
      var prefix := records[..|records| - 1];
      OnePassSuffices(prefix, root);
      PassKnown(prefix, root);
      LastStep(records, root);
    }
  }

  /** On such a ledger the result of one pass is the closure itself. */
  lemma OnePassIsClosure(records: seq<Record>, root: RunId)
    requires WellFormed(records)
    ensures forall r :: r in Pass(records, {root}) <==> Descends(records, root, r)
  {
    OnePassSuffices(records, root);
    PassKnown(records, root);
    SaturatedIsClosure(records, root, Pass(records, {root}));
  }

  lemma LastStep(records: seq<Record>, root: RunId)
    requires WellFormed(records) && records != []
    requires var prefix := records[..|records| - 1];
             && Saturated(prefix, Pass(prefix, {root})) && root in Pass(prefix, {root})
             && Pass(prefix, {root}) <= RunsOf(prefix).Keys + {root}
             && forall r | r in Pass(prefix, {root}) :: Descends(prefix, root, r)
    ensures Saturated(records, Pass(records, {root}))
    ensures forall r | r in Pass(records, {root}) :: Descends(records, root, r)
  {
    var n := |records| - 1;
    var prefix, e := records[..n], records[n].event;
    var before, after := Pass(prefix, {root}), Pass(records, {root});
    forall r | r in before ensures Descends(records, root, r) {
      Longer(prefix, records, root, r);
    }
    if after != before {
      DescendsStep(records, root, n);
    }
    forall i | 0 <= i < |records| && records[i].event.RunStarted? && records[i].event.parent.Some?
      && records[i].event.parent.value in after
      ensures records[i].event.run in after
    {
      if i < n {
        assert records[i] == prefix[i];
        ParentsKnown(prefix, i);
      }
    }
  }

  lemma {:induction false} LongerChain(prefix: seq<Record>, records: seq<Record>, path: seq<RunId>)
    requires prefix <= records && Chain(prefix, path)
    ensures Chain(records, path)
  {
    if |path| > 1 {
      var n := |path| - 1;
      LongerChain(prefix, records, path[..n]);
      var i :| 0 <= i < |prefix| && Starts(prefix[i], path[n - 1], path[n]);
      assert records[i] == prefix[i];
    }
  }

  lemma Longer(prefix: seq<Record>, records: seq<Record>, root: RunId, run: RunId)
    requires prefix <= records && Descends(prefix, root, run)
    ensures Descends(records, root, run)
  {
    var path: seq<RunId> :| path != [] && path[0] == root && path[|path| - 1] == run && Chain(prefix, path);
    LongerChain(prefix, records, path);
  }

  lemma {:induction false} ChainSharesApp(records: seq<Record>, path: seq<RunId>)
    requires WellFormed(records) && path != [] && path[0] in RunsOf(records) && Chain(records, path)
    ensures path[|path| - 1] in RunsOf(records)
    ensures RunsOf(records)[path[|path| - 1]].app == RunsOf(records)[path[0]].app
  {
    if |path| > 1 {
      var n := |path| - 1;
      ChainSharesApp(records, path[..n]);
      var i :| 0 <= i < |records| && Starts(records[i], path[n - 1], path[n]);
      ChildSharesApp(records, i);
    }
  }

  lemma {:induction false} ChildSharesApp(records: seq<Record>, i: nat)
    requires WellFormed(records) && i < |records| && records[i].event.RunStarted? && records[i].event.parent.Some?
    ensures var runs, e := RunsOf(records), records[i].event;
            e.run in runs && e.parent.value in runs && runs[e.run].app == runs[e.parent.value].app
  {
    var n := |records| - 1;
    if i < n {
      ChildSharesApp(records[..n], i);
    }
  }

  /** Descendants act for the app that started the root. */
  lemma DescendantsShareApp(records: seq<Record>, root: RunId, run: RunId)
    requires WellFormed(records) && root in RunsOf(records) && Descends(records, root, run)
    ensures run in RunsOf(records) && RunsOf(records)[run].app == RunsOf(records)[root].app
  {
    var path: seq<RunId> :| path != [] && path[0] == root && path[|path| - 1] == run && Chain(records, path);
    ChainSharesApp(records, path);
  }
}
