/**
  Where artifacts come from: over every history, each goes back to the finalization
  of one invocation and is of a type its provider had declared.
 */
module Artifacts {
  import opened Domain
  import opened KernelState
  import opened ActionPath
  import opened Recovery
  import opened Runs
  import opened NoLateResult
  import opened Attribution
  import opened LastingAuthority

  /** The call at `n` finalized the work this artifact was stamped by, and the provider had declared its type. */
  ghost predicate MadeAt(script: seq<CommitOutcome>, calls: seq<Call>, n: int, art: Artifact) {
    && 0 <= n < |calls| && calls[n].DoFinalize?
    && var s, id := Run(Init(script), calls[..n]), calls[n].id;
    && id in s.tokens && s.tokens[id].Executed? && id in s.pending && GoodResult(s.pending[id], s.tokens[id].execution)
    && var p := s.pending[id];
    && art.kind in p.hash.types && art.run == p.run && art.cap == p.slot.cap && art.grant == p.grant.id
    && art.producedBy == p.slot.cap.provider
  }

  ghost predicate AllMade(script: seq<CommitOutcome>, calls: seq<Call>, artifacts: map<ArtifactId, Artifact>) {
    forall a | a in artifacts :: exists n :: MadeAt(script, calls, n, artifacts[a])
  }

  lemma MadeEarlier(script: seq<CommitOutcome>, calls: seq<Call>, c: Call, artifacts: map<ArtifactId, Artifact>)
    requires AllMade(script, calls, artifacts)
    ensures AllMade(script, calls + [c], artifacts)
  {
    hide Run;
    forall a | a in artifacts ensures exists n :: MadeAt(script, calls + [c], n, artifacts[a]) {
      var n :| MadeAt(script, calls, n, artifacts[a]);
      assert (calls + [c])[..n] == calls[..n];
      assert MadeAt(script, calls + [c], n, artifacts[a]);
    }
  }

  lemma MadeNow(script: seq<CommitOutcome>, calls: seq<Call>, c: Call)
    requires var s := Run(Init(script), calls);
             && c.DoFinalize? && c.id in s.tokens && s.tokens[c.id].Executed? && c.id in s.pending
             && GoodResult(s.pending[c.id], s.tokens[c.id].execution)
    requires AllMade(script, calls, Run(Init(script), calls).artifacts)
    ensures var s := Run(Init(script), calls);
            AllMade(script, calls + [c], s.artifacts + StampedArtifacts(s, c.id, s.tokens[c.id].execution.drafts))
  {
    hide Run, MadeAt;
    var s := Run(Init(script), calls);
    var drafts := s.tokens[c.id].execution.drafts;
    MadeEarlier(script, calls, c, s.artifacts);
    var all := s.artifacts + StampedArtifacts(s, c.id, drafts);
    forall a | a in all ensures exists n :: MadeAt(script, calls + [c], n, all[a]) {
      if a in StampedArtifacts(s, c.id, drafts) {
        StampedIsMade(script, calls, c, s, a);
        assert all[a] == StampedArtifacts(s, c.id, drafts)[a] == Stamp(s, c.id, drafts, a);
      } else {
        assert all[a] == s.artifacts[a];
      }
    }
  }

  lemma StampedIsMade(script: seq<CommitOutcome>, calls: seq<Call>, c: Call, s: Kernel, a: ArtifactId)
    requires s == Run(Init(script), calls)
    requires c.DoFinalize? && c.id in s.tokens && s.tokens[c.id].Executed? && c.id in s.pending
    requires GoodResult(s.pending[c.id], s.tokens[c.id].execution)
    requires s.nextId <= a < s.nextId + |s.tokens[c.id].execution.drafts|
    ensures MadeAt(script, calls + [c], |calls|, Stamp(s, c.id, s.tokens[c.id].execution.drafts, a))
  {
    hide Run;
    assert (calls + [c])[..|calls|] == calls;
    assert s.tokens[c.id].execution.drafts[a - s.nextId] in s.tokens[c.id].execution.drafts;
  }

  lemma RestartArtifacts(s: Kernel, script: seq<CommitOutcome>)
    ensures var s' := Restart(s, script).0; s'.artifacts == s.disk.artifacts && s'.disk.artifacts == s.disk.artifacts
  {
    hide Write, Bootable, ClosingEvents, AllActive;
  }

  lemma StepArtifacts(s: Kernel, c: Call)
    requires !c.DoRestart? && !c.DoFinalize?
    ensures KeepsArtifacts(s, Step(s, c))
  {
    hide Apply;
    if Enabled(s, c) {
      if IsLifecycle(c) && !c.DoEndRun? {
        LifecycleGrows(s, c);
      } else {
        ActionKeeps(s, c);
      }
    }
  }

  /**
    Over every history, restarts and lost commits included: every artifact, in memory or
    in the store, was stamped by finalizing work that had been prepared under provider
    content that declares its type, and names that work's run, capability and grant.
   */
  lemma {:induction false} ArtifactsAreDeclared(script: seq<CommitOutcome>, calls: seq<Call>)
    ensures AllMade(script, calls, Run(Init(script), calls).artifacts)
    ensures AllMade(script, calls, Run(Init(script), calls).disk.artifacts)
  {
    hide AllMade, Step, StampedArtifacts;
    if calls == [] {
      NoArtifactsYet(script);
    } else {
      var n := |calls| - 1;
      var first, c := calls[..n], calls[n];
      assert calls == first + [c];
      var s := Run(Init(script), first);
      ArtifactsAreDeclared(script, first);
      MadeEarlier(script, first, c, s.artifacts);
      MadeEarlier(script, first, c, s.disk.artifacts);
      if c.DoRestart? {
        RestartArtifacts(s, c.script);
        RestartIs(s, c);
      } else if c.DoFinalize? && Enabled(s, c) {
        FinalizeIs(s, c);
        FinalizeKeeps(s, c.id, c.t);
        if !KeepsArtifacts(s, Step(s, c)) {
          MadeNow(script, first, c);
        }
      } else if c.DoFinalize? {
        Idle(s, c);
      } else {
        StepArtifacts(s, c);
      }
    }
  }

  lemma Idle(s: Kernel, c: Call)
    requires !Enabled(s, c)
    ensures Step(s, c) == s
  {
  }

  lemma NoArtifactsYet(script: seq<CommitOutcome>)
    ensures AllMade(script, [], Init(script).artifacts) && AllMade(script, [], Init(script).disk.artifacts)
  {
  }
}
