/**
  Versioned app data on disk: staging a candidate revision, committing it, and
  rolling back, with a crash possible between any two changes to the disk.
 */
module AppData {
  import opened Basics

  type RevisionId = nat

  /** The content of a revision's directory. */
  type Tree = nat

  const EMPTY_TREE: Tree := 0

  /** The persisted document: which revisions exist and which one is active. */
  datatype State = State(active: RevisionId, revisions: seq<RevisionId>)

  type Directories = map<RevisionId, Tree>

  /** What loading the document checks: distinct revisions, each with its directory, one of them active. */
  predicate Loadable(state: Option<State>, dirs: Directories) {
    state.Some? ==>
      && Distinct(state.value.revisions) && state.value.active in state.value.revisions
      && forall r | r in state.value.revisions :: r in dirs
  }

  function Remove(s: seq<RevisionId>, r: RevisionId): (t: seq<RevisionId>)
    ensures forall x :: x in t <==> x in s && x != r
    ensures Distinct(s) ==> Distinct(t)
    ensures r !in s ==> t == s
  {
    if s == [] then []
    else
      var t := Remove(s[..|s| - 1], r);
      assert Distinct(s) ==> s[|s| - 1] !in s[..|s| - 1];
      if s[|s| - 1] == r then t else t + [s[|s| - 1]]
  }

  /** Nothing changed but the directory of `r`. */
  ghost predicate SameElsewhere(now: Directories, before: Directories, r: RevisionId) {
    forall x | x != r :: (x in now <==> x in before) && (x in now ==> now[x] == before[x])
  }

  lemma RemoveAdded(s: seq<RevisionId>, r: RevisionId)
    requires r !in s
    ensures Remove(s + [r], r) == s
  {
    assert (s + [r])[..|s|] == s;
  }

  /** A transition from `source` (if there was data) to a fresh `candidate`, and the disk it began on. */
  datatype Transition = Transition(source: Option<RevisionId>, candidate: RevisionId, state: Option<State>, dirs: Directories) {
    predicate Valid() {
      && Loadable(state, dirs) && candidate !in dirs
      && (if source.Some? then state.Some? && state.value.active == source.value else state.None?)
    }

    /** Every revision of before is where and what it was. */
    predicate Preserved(now: Directories) {
      forall r | r in dirs :: r in now && now[r] == dirs[r]
    }

    function Committed(): State {
      State(candidate, (if state.Some? then state.value.revisions else []) + [candidate])
    }

    /** Before commit or after rollback the document is the old one; after commit it names the candidate. */
    predicate Underway(current: Option<State>, now: Directories) {
      && Preserved(now) && (forall r | r in now :: r in dirs || r == candidate)
      && (current == state || (current == Some(Committed()) && candidate in now))
    }

    predicate RolledBack(current: Option<State>, now: Directories) {
      current == state && now == dirs
    }
  }

  lemma UnderwayIsLoadable(t: Transition, current: Option<State>, now: Directories)
    requires t.Valid() && t.Underway(current, now)
    ensures Loadable(current, now)
  {
  }

  /** How many changes staging takes: clear what is there, make the directory, copy the source. */
  function StageLength(t: Transition, dirs: Directories): nat {
    (if t.candidate in dirs then 2 else 0) + 1 + (if t.source.Some? then 2 else 0)
  }

  // ----- Backups -----

  function Set(s: seq<RevisionId>): set<RevisionId> {
    set r | r in s
  }

  /** The backups beyond the newest `retention`; the document lists revisions in the order of their creation. */
  function Surplus(s: State, retention: nat): seq<RevisionId> {
    var backups := Remove(s.revisions, s.active);
    backups[..if |backups| <= retention then 0 else |backups| - retention]
  }

  function RemoveAll(s: seq<RevisionId>, rs: seq<RevisionId>): (t: seq<RevisionId>)
    ensures forall x :: x in t <==> x in s && x !in rs
    ensures Distinct(s) ==> Distinct(t)
    ensures rs == [] ==> t == s
    decreases |rs|
  {
    if rs == [] then s else RemoveAll(Remove(s, rs[0]), rs[1..])
  }

  function Pruned(s: State, retention: nat): State {
    s.(revisions := RemoveAll(s.revisions, Surplus(s, retention)))
  }

  /** How many changes pruning takes: each directory is set aside and removed, with the document in between. */
  function PruneLength(s: State, retention: nat): nat {
    var n := |Surplus(s, retention)|;
    if n == 0 then 0 else 2 * n + 1
  }

  lemma SurplusFacts(s: State, retention: nat)
    requires Distinct(s.revisions)
    ensures Distinct(Surplus(s, retention)) && s.active !in Surplus(s, retention)
    ensures forall r | r in Surplus(s, retention) :: r in s.revisions
  {
    var backups := Remove(s.revisions, s.active);
    assert forall r | r in Surplus(s, retention) :: r in backups;
  }

  /** Removing keeps the order: what comes before a place in the list comes before it in the rest. */
  lemma {:induction false} RemovePrefix(s: seq<RevisionId>, r: RevisionId, k: nat)
    requires k <= |s|
    ensures Remove(s[..k], r) <= Remove(s, r)
  {
    if k < |s| {
      RemovePrefix(s[..|s| - 1], r, k);
      assert s[..|s| - 1][..k] == s[..k];
    } else {
      assert s[..k] == s;
    }
  }

  lemma PlaceAmongOthers(s: seq<RevisionId>, r: RevisionId, i: nat)
    requires i < |s| && s[i] != r
    ensures var p := |Remove(s[..i], r)|; p < |Remove(s, r)| && Remove(s, r)[p] == s[i]
  {
    assert s[..i + 1][..i] == s[..i];
    RemovePrefix(s, r, i + 1);
  }

  /**
    What is dropped are the oldest backups: as many as exceed the retention, never the active
    revision, and with a backup every older one.
   */
  lemma DropsOldest(s: State, retention: nat)
    requires Distinct(s.revisions)
    ensures var backups, gone := Remove(s.revisions, s.active), Surplus(s, retention);
            && (|backups| <= retention ==> gone == []) && (|backups| > retention ==> |backups| - |gone| == retention)
            && s.active !in gone && (forall r | r in gone :: r in s.revisions)
            && forall i, j | 0 <= i < j < |s.revisions| && s.revisions[i] != s.active && s.revisions[j] in gone ::
                 s.revisions[i] in gone
  {
    SurplusFacts(s, retention);
    var backups, gone := Remove(s.revisions, s.active), Surplus(s, retention);
    forall i, j | 0 <= i < j < |s.revisions| && s.revisions[i] != s.active && s.revisions[j] in gone
      ensures s.revisions[i] in gone
    {
      PlaceAmongOthers(s.revisions, s.active, i);
      PlaceAmongOthers(s.revisions, s.active, j);
      RemovePrefix(s.revisions[..j], s.active, i);
      assert s.revisions[..j][..i] == s.revisions[..i];
      var p, q := |Remove(s.revisions[..i], s.active)|, |Remove(s.revisions[..j], s.active)|;
      var k :| 0 <= k < |gone| && gone[k] == s.revisions[j];
      assert backups[k] == backups[q];
      assert backups[p] == gone[p];
    }
  }

  /** Nothing changed but the directories of `rs`. */
  ghost predicate SameOutside(now: Directories, before: Directories, rs: seq<RevisionId>) {
    forall x | x !in rs :: (x in now <==> x in before) && (x in now ==> now[x] == before[x])
  }

  datatype Result = Done | Refused | Crashed

  class AppDataStore {
    var state: Option<State>
    var dirs: Directories

    /** Directories renamed on their way out. */
    var pruning: Directories

    /** How many more changes reach the disk before the next crash. */
    var fuse: nat

    constructor (state: Option<State>, dirs: Directories)
      ensures this.state == state && this.dirs == dirs
    {
      this.state, this.dirs, this.pruning, this.fuse := state, dirs, map[], 0;
    }

    // ----- Single changes: each happens entirely, or the host went down before it -----

    method PutDir(r: RevisionId, tree: Tree) returns (ok: bool)
      modifies this`dirs, this`fuse
      ensures dirs == if ok then old(dirs)[r := tree] else old(dirs)
      ensures ok <==> old(fuse) > 0
      ensures fuse == if ok then old(fuse) - 1 else old(fuse)
    {
      ok := fuse > 0;
      if ok {
        dirs, fuse := dirs[r := tree], fuse - 1;
      }
    }

    method DropDir(r: RevisionId) returns (ok: bool)
      modifies this`dirs, this`fuse
      ensures dirs == if ok then old(dirs) - {r} else old(dirs)
      ensures ok <==> old(fuse) > 0
      ensures fuse == if ok then old(fuse) - 1 else old(fuse)
    {
      ok := fuse > 0;
      if ok {
        dirs, fuse := dirs - {r}, fuse - 1;
      }
    }

    /** Writing the document replaces it by one rename; `None` removes it. */
    method PutState(s: Option<State>) returns (ok: bool)
      modifies this`state, this`fuse
      ensures state == if ok then s else old(state)
      ensures ok <==> old(fuse) > 0
      ensures fuse == if ok then old(fuse) - 1 else old(fuse)
    {
      ok := fuse > 0;
      if ok {
        state, fuse := s, fuse - 1;
      }
    }

    // ----- The operations -----

    /** Removing a tree takes many steps; until the last one some remainder is left. */
    method DiscardCandidate(candidate: RevisionId, remainder: Tree) returns (r: Result)
      modifies this`dirs, this`fuse
      ensures !r.Refused? && (r.Done? ==> candidate !in dirs)
      ensures SameElsewhere(dirs, old(dirs), candidate)
      ensures r.Done? <==> old(candidate !in dirs || fuse >= 2)
      ensures r.Done? ==> fuse == if old(candidate in dirs) then old(fuse) - 2 else old(fuse)
    {
      if candidate !in dirs {
        return Done;
      }
      var ok := PutDir(candidate, remainder);
      if ok {
        ok := DropDir(candidate);
      }
      r := if ok then Done else Crashed;
    }

    /**
      Copy the source into the candidate's directory, over whatever an earlier attempt
      left there, and return the source's digest. `meanwhile` is what someone else makes
      of the source during the copy: a changed source is refused.
     */
    method StageCandidate(t: Transition, remainder: Tree, partial: Tree, meanwhile: Option<Tree>)
      returns (r: Result, digest: Option<Tree>)
      requires t.Valid() && t.Underway(state, dirs) && state == t.state
      modifies this`dirs, this`fuse
      ensures meanwhile.None? ==> t.Underway(state, dirs)
      ensures r.Done? ==> t.candidate in dirs && digest.Some? == t.source.Some?
      ensures r.Done? && t.source.None? ==> dirs[t.candidate] == EMPTY_TREE
      ensures r.Done? && t.source.Some? ==>
                var source := t.source.value;
                && source in dirs && source in t.dirs && dirs[source] == t.dirs[source]
                && dirs[t.candidate] == t.dirs[source] && digest == Some(t.dirs[source])
      ensures meanwhile.None? ==> (r.Done? <==> old(fuse >= StageLength(t, dirs)))
    {
      digest := None;
      r := DiscardCandidate(t.candidate, remainder);
      if r.Crashed? {
        return;
      }
      var ok := PutDir(t.candidate, EMPTY_TREE);
      if ok && t.source.Some? {
        var source := t.source.value;
        if source !in dirs {
          return Refused, None;
        }
        var before := dirs[source];
        ok := PutDir(t.candidate, partial);
        if ok {
          ok := PutDir(t.candidate, before);
        }
        if meanwhile.Some? {
          dirs := dirs[source := meanwhile.value];
        }
        if ok && dirs[source] != before {
          var _ := DiscardCandidate(t.candidate, remainder);
          return Refused, None;
        }
        digest := Some(before);
      }
      r := if ok then Done else Crashed;
    }

    /** Make the candidate the active revision; doing it again changes nothing. */
    method CommitCandidate(t: Transition) returns (r: Result)
      requires t.Valid() && t.Underway(state, dirs)
      modifies this`state, this`fuse
      ensures t.Underway(state, dirs)
      ensures r.Done? ==> state == Some(t.Committed())
      ensures old(state) == Some(t.Committed()) ==> state == old(state) && !r.Refused?
      ensures r.Refused? ==> t.candidate !in dirs && state == old(state)
      ensures r.Crashed? ==> old(fuse) == 0 && state == old(state)
    {
      UnderwayIsLoadable(t, state, dirs);
      if !Loadable(state, dirs) {
        return Refused;
      }
      var current := if state.Some? then state.value else State(t.candidate, []);
      if t.source.Some? && current.active != t.source.value {
        return if current.active == t.candidate then Done else Refused;
      }
      if t.candidate !in dirs {
        return Refused;
      }
      var revisions := if t.candidate in current.revisions then current.revisions else current.revisions + [t.candidate];
      var ok := PutState(Some(State(t.candidate, revisions)));
      r := if ok then Done else Crashed;
    }

    /** The document as it was before the transition. */
    method RestoreDocument(t: Transition) returns (r: Result)
      requires t.Valid() && t.Underway(state, dirs)
      modifies this`state, this`fuse
      ensures !r.Refused? && t.Underway(state, dirs) && (r.Done? ==> state == t.state)
      ensures r.Done? ==> fuse == old(fuse) - 1
      ensures r.Crashed? <==> old(fuse) == 0
    {
      UnderwayIsLoadable(t, state, dirs);
      var ok;
      if t.source.Some? {
        if state.None? || !Loadable(state, dirs) || t.source.value !in state.value.revisions {
          return Refused;
        }
        var kept := Remove(state.value.revisions, t.candidate);
        RemoveAdded(t.state.value.revisions, t.candidate);
        ok := PutState(Some(State(t.source.value, kept)));
      } else {
        if state.Some? && (!Loadable(state, dirs) || state.value.active != t.candidate) {
          return Refused;
        }
        ok := PutState(None);
      }
      r := if ok then Done else Crashed;
    }

    /** Back to the source, or to no data at all; never refused during its own transition. */
    method RollbackTransition(t: Transition, remainder: Tree) returns (r: Result)
      requires t.Valid() && t.Underway(state, dirs)
      modifies this
      ensures t.Underway(state, dirs) && !r.Refused?
      ensures r.Done? ==> t.RolledBack(state, dirs)
      ensures r.Crashed? ==> old(fuse) < 3
    {
      r := RestoreDocument(t);
      if r.Done? {
        r := DiscardCandidate(t.candidate, remainder);
      }
    }

    /** Rename a backup's directory out of the way, or back. */
    method SetAside(r: RevisionId) returns (ok: bool)
      requires r in dirs
      modifies this`dirs, this`pruning, this`fuse
      ensures ok <==> old(fuse) > 0
      ensures dirs == if ok then old(dirs) - {r} else old(dirs)
      ensures pruning == if ok then old(pruning)[r := old(dirs[r])] else old(pruning)
      ensures fuse == if ok then old(fuse) - 1 else old(fuse)
    {
      ok := fuse > 0;
      if ok {
        dirs, pruning, fuse := dirs - {r}, pruning[r := dirs[r]], fuse - 1;
      }
    }

    method PutBack(r: RevisionId) returns (ok: bool)
      requires r in pruning
      modifies this`dirs, this`pruning, this`fuse
      ensures ok <==> old(fuse) > 0
      ensures dirs == if ok then old(dirs)[r := old(pruning[r])] else old(dirs)
      ensures pruning == if ok then old(pruning) - {r} else old(pruning)
      ensures fuse == if ok then old(fuse) - 1 else old(fuse)
    {
      ok := fuse > 0;
      if ok {
        dirs, pruning, fuse := dirs[r := pruning[r]], pruning - {r}, fuse - 1;
      }
    }

    method SetAllAside(rs: seq<RevisionId>) returns (ok: bool)
      requires Distinct(rs) && forall r | r in rs :: r in dirs
      modifies this`dirs, this`pruning, this`fuse
      ensures ok <==> old(fuse) >= |rs|
      ensures ok ==> fuse == old(fuse) - |rs| && dirs == old(dirs) - Set(rs)
                     && forall r | r in rs :: r in pruning && pruning[r] == old(dirs[r])
      ensures !ok ==> fuse == 0 && dirs == old(dirs) - Set(rs[..old(fuse)])
    {
      ok := true;
      var i := 0;
      while i < |rs| && ok
        invariant 0 <= i <= |rs| && i <= old(fuse)
        invariant fuse == old(fuse) - i && (!ok ==> fuse == 0 && i < |rs|)
        invariant dirs == old(dirs) - Set(rs[..i])
        invariant forall k | 0 <= k < i :: rs[k] in pruning && pruning[rs[k]] == old(dirs[rs[k]])
        decreases |rs| - i, ok
      {
        assert rs[i] in rs && rs[i] !in rs[..i];
        assert rs[..i + 1] == rs[..i] + [rs[i]];
        ok := SetAside(rs[i]);
        if ok {
          i := i + 1;
        }
      }
      assert rs[..|rs|] == rs;
    }

    method PutAllBack(rs: seq<RevisionId>) returns (ok: bool)
      requires Distinct(rs) && forall r | r in rs :: r in pruning && r !in dirs
      modifies this`dirs, this`pruning, this`fuse
      ensures ok <==> old(fuse) >= |rs|
      ensures ok ==> dirs.Keys == old(dirs).Keys + Set(rs)
                     && (forall r | r in old(dirs) :: dirs[r] == old(dirs)[r])
                     && (forall r | r in rs :: dirs[r] == old(pruning)[r])
      ensures !ok ==> exists r :: r in rs && r !in dirs
      ensures SameOutside(dirs, old(dirs), rs)
    {
      ok := true;
      var i := |rs|;
      while i > 0 && ok
        invariant 0 <= i <= |rs| && fuse == old(fuse) - (|rs| - i) && (!ok ==> fuse == 0 && i > 0)
        invariant dirs.Keys == old(dirs).Keys + Set(rs[i..])
        invariant forall r | r in old(dirs) :: dirs[r] == old(dirs)[r]
        invariant forall k | i <= k < |rs| :: dirs[rs[k]] == old(pruning)[rs[k]]
        invariant forall k | 0 <= k < i :: rs[k] in pruning && pruning[rs[k]] == old(pruning)[rs[k]] && rs[k] !in dirs
        decreases i, ok
      {
        assert rs[i - 1..] == [rs[i - 1]] + rs[i..];
        ok := PutBack(rs[i - 1]);
        if ok {
          i := i - 1;
        }
      }
      assert !ok ==> rs[i - 1] in rs && rs[i - 1] !in dirs;
    }

    /**
      Drop the oldest backups, all but the last `retention`. Interrupted after the first
      directory was set aside and before the document follows, it leaves a document that
      does not load: it loads exactly if the crash came before or after that stretch. If
      only writing the document fails, the directories are put back, in as many changes.
     */
    method PruneBackups(retention: nat, writeFails: bool) returns (r: Result)
      modifies this
      ensures old(state).Some? ==> state.Some? && state.value.active == old(state).value.active
      ensures !r.Done? ==> state == old(state) || (old(state).Some? && state == Some(Pruned(old(state).value, retention)))
      ensures r.Done? ==> old(state).Some? && state == Some(Pruned(old(state).value, retention))
      ensures r.Done? ==> dirs == old(dirs) - Set(Surplus(old(state).value, retention))
      ensures if old(state).None? then dirs == old(dirs) else SameOutside(dirs, old(dirs), Surplus(old(state).value, retention))
      ensures old(state).Some? && old(Loadable(state, dirs)) && retention > 0 ==>
                var n, before := |Surplus(old(state).value, retention)|, old(fuse);
                && (Loadable(state, dirs) <==> n == 0 || before == 0 || (if writeFails then before >= 2 * n else before > n))
                && (r.Done? <==> n == 0 || (!writeFails && before >= PruneLength(old(state).value, retention)))
      ensures old(!Loadable(state, dirs)) ==> r.Refused? && state == old(state) && dirs == old(dirs)
    {
      if retention == 0 || state.None? || !Loadable(state, dirs) {
        return Refused;
      }
      var remove := Surplus(state.value, retention);
      SurplusFacts(state.value, retention);
      ghost var dirs0, fuse0 := dirs, fuse;
      if remove == [] {
        return Done;
      }
      var ok := SetAllAside(remove);
      if !ok {
        assert fuse0 > 0 ==> remove[..fuse0][0] == remove[0] && remove[0] in Set(remove[..fuse0]);
        return Crashed;
      }
      if writeFails {
        ok := PutAllBack(remove);
        assert ok ==> dirs == dirs0;
        assert SameOutside(dirs, dirs0, remove);
        return if ok then Refused else Crashed;
      }
      ok := PutState(Some(Pruned(state.value, retention)));
      assert !ok ==> remove[0] !in dirs;
      if !ok || fuse < |remove| {
        return Crashed;
      }
      fuse := fuse - |remove|;
      pruning := pruning - Set(remove);
      r := Done;
    }

    /**
      Whatever crashed before, and however often the rollback itself is interrupted:
      once it runs to its end, the source is active, every tree of before is unchanged,
      and the candidate is in neither the document nor on disk.
     */
    method RollBackUntilDone(t: Transition, crashes: seq<nat>, remainder: Tree)
      requires t.Valid() && t.Underway(state, dirs)
      modifies this
      ensures t.RolledBack(state, dirs)
    {
      var r := Crashed;
      for i := 0 to |crashes|
        invariant t.Underway(state, dirs)
      {
        fuse := crashes[i];
        r := RollbackTransition(t, remainder);
      }
      fuse := 3;
      r := RollbackTransition(t, remainder);
    }
  }

  /** Three revisions, one backup to keep, and a crash right after the oldest one was set aside. */
  method InterruptedPruning() returns (store: AppDataStore)
    ensures fresh(store) && !Loadable(store.state, store.dirs)
  {
    var state := State(3, [1, 2, 3]);
    store := new AppDataStore(Some(state), map[1 := 10, 2 := 20, 3 := 30]);
    store.fuse := 1;
    assert [1, 2, 3][..2] == [1, 2] && [1, 2][..1] == [1] && [1][..0] == [];
    assert Remove([1], 3) == [1] && Remove([1, 2], 3) == [1, 2];
    assert Surplus(state, 1) == [1];
    var _ := store.PruneBackups(1, false);
  }

  /** The steps of a transition, each possibly cut short by a crash. */
  datatype Step = Stage(fuse: nat) | Commit(fuse: nat) | Rollback(fuse: nat)

  datatype Disk = Disk(state: Option<State>, dirs: Directories)

  /**
    Any sequence of staging, committing and rolling back, each cut short anywhere: every
    disk it leaves can be loaded and holds what was there before, and a final rollback
    undoes everything. Staging happens only before the commit, as the
    transition's journal has it.
   */
  method AnyTransition(store: AppDataStore, t: Transition, steps: seq<Step>, partial: Tree) returns (ghost disks: seq<Disk>)
    requires t.Valid() && store.state == t.state && store.dirs == t.dirs
    modifies store
    ensures |disks| == |steps| && forall d | d in disks :: Loadable(d.state, d.dirs) && t.Underway(d.state, d.dirs)
    ensures t.RolledBack(store.state, store.dirs)
  {
    disks := [];
    for i := 0 to |steps|
      invariant t.Underway(store.state, store.dirs) && |disks| == i
      invariant forall d | d in disks :: Loadable(d.state, d.dirs) && t.Underway(d.state, d.dirs)
    {
      store.fuse := steps[i].fuse;
      var r: Result;
      match steps[i] {
        case Stage(_) =>
          if store.state == t.state {
            var digest;
            r, digest := store.StageCandidate(t, partial, partial, None);
          }
        case Commit(_) => r := store.CommitCandidate(t);
        case Rollback(_) => r := store.RollbackTransition(t, partial);
      }
      UnderwayIsLoadable(t, store.state, store.dirs);
      disks := disks + [Disk(store.state, store.dirs)];
    }
    store.RollBackUntilDone(t, [], partial);
  }
}
