/**
  Driving a chat session: every step starts a child run of its own, and the driver
  must close it on every branch. One branch does not; the contracts of the sessions say
  exactly when, in terms of what the kernel still holds.
 */
module ChatDriver {
  import opened ChatLoop
  import Domain
  import Ledger
  import ActionLog
  import KernelState
  import ActionPath
  import KernelInvariant
  import Reservations

  type RunId = nat

  /** The kernel's runs as the driver sees them: commits succeed, and a run ends once. */
  class RunTable {
    var started: set<RunId>
    var ends: seq<RunId>
    var next: RunId

    ghost predicate Valid()
      reads this
    {
      && (forall r | r in started :: r < next)
      && (forall r | r in ends :: r in started)
      && (forall i, j | 0 <= i < j < |ends| :: ends[i] != ends[j])
    }

    ghost predicate Open(r: RunId)
      reads this
    {
      r in started && r !in ends
    }

    /** The kernel hands out a new id. */
    method StartRun(run: RunId)
      requires Valid() && next <= run
      modifies this
      ensures Valid() && run !in old(started) && started == old(started) + {run} && ends == old(ends) && next == run + 1
    {
      started, next := started + {run}, run + 1;
    }

    method EndRun(run: RunId) returns (ok: bool)
      requires Valid()
      modifies this`ends
      ensures Valid() && ok == old(Open(run)) && ends == if ok then old(ends) + [run] else old(ends)
    {
      ok := run in started && run !in ends;
      if ok {
        ends := ends + [run];
      }
    }
  }

  datatype Authorization = AuthorizeFailed | AuthorizeRefused | Authorized

  /**
    What happens in one round; `child` is the id the kernel gives the child run, and
    `kernel` the kernel that an abort of the prepared child finds.
   */
  datatype Round = Round(
    cancelledBefore: bool,
    child: RunId,
    preparation: Preparation,
    cancelledAfter: bool,
    kernel: KernelState.Kernel,
    token: Domain.InvId,
    bindOk: bool,
    approvalTaskOk: bool,
    authorization: Authorization,
    executionTaskOk: bool,
    finalizeOk: bool,
    result: Result)

  /** A kernel whose store commits, with the child's run active and a prepared token of work in that run. */
  ghost predicate RoundOk(round: Round) {
    var s, id := round.kernel, round.token;
    && KernelInvariant.Inv(s) && Reservations.Willing(s) && Ledger.Active(s.ledger.runs, round.child)
    && id in s.tokens && s.tokens[id].Prepared?
    && ActionLog.Track(s.ledger.records, false).Some?
    && var book := ActionLog.Track(s.ledger.records, false).value; id in book && book[id].run == round.child
  }

  /** The one way to leave a child run open: cancelled while prepared, when the kernel no longer holds the reservation. */
  predicate Abandons(round: Round) {
    round.cancelledAfter && round.token !in round.kernel.pending
  }

  /** The child's result does not go on to the session. */
  predicate Unsettles(agent: bool, round: Round) {
    round.cancelledAfter || (agent && !round.bindOk) || !round.approvalTaskOk || round.authorization.AuthorizeFailed?
    || (round.authorization.Authorized? && (!round.executionTaskOk || !round.finalizeOk))
  }

  /**
    One prepared child, from the cancellation check to finalization. The child run
    is ended on every branch but one, and after a cancellation it is open in the kernel
    exactly then; `settled` says that its result goes on to the session.
   */
  method RunChild(runs: RunTable, agent: bool, round: Round) returns (settled: bool)
    requires runs.Valid() && runs.Open(round.child) && RoundOk(round)
    modifies runs`ends
    ensures runs.Valid() && runs.ends == if Abandons(round) then old(runs.ends) else old(runs.ends) + [round.child]
    ensures round.cancelledAfter ==>
              (runs.Open(round.child)
               <==> Ledger.Active(Reservations.CleanUp(round.kernel, round.token, round.child).ledger.runs, round.child))
    ensures settled <==> !Unsettles(agent, round)
  {
    var child := round.child;
    if round.cancelledAfter {
      Reservations.AbortFailsIff(round.kernel, round.token);
      Reservations.CleanUpLeavesOpenIff(round.kernel, round.token, child);
      hide Reservations.CleanUp, Ledger.Active;
      var aborted := ActionPath.Abort(round.kernel, round.token).1;
      if aborted.Failure? {
        // The early return skips ending the run.
        return false;
      }
      var _ := runs.EndRun(child);
      return false;
    }
    if agent && !round.bindOk {
      FailChildRun(runs, child);
      return false;
    }
    if !round.approvalTaskOk {
      FailChildRun(runs, child);
      return false;
    }
    if round.authorization.AuthorizeFailed? {
      FailChildRun(runs, child);
      return false;
    }
    if round.authorization.Authorized? && (!round.executionTaskOk || !round.finalizeOk) {
      FailChildRun(runs, child);
      return false;
    }
    settled := runs.EndRun(child);
  }

  method FailChildRun(runs: RunTable, child: RunId)
    requires runs.Valid()
    modifies runs`ends
    ensures runs.Valid() && runs.ends == if old(runs.Open(child)) then old(runs.ends) + [child] else old(runs.ends)
  {
    var _ := runs.EndRun(child);
  }

  /** The runs started since `before` that have not ended. */
  function StillOpen(started: set<RunId>, ends: seq<RunId>, before: set<RunId>): set<RunId> {
    set r | r in started && r !in before && r !in ends
  }

  lemma Ending(started: set<RunId>, ends: seq<RunId>, before: set<RunId>, run: RunId)
    ensures StillOpen(started, ends + [run], before) == StillOpen(started, ends, before) - {run}
    ensures run in before ==> StillOpen(started, ends + [run], before) == StillOpen(started, ends, before)
  {
  }

  /** Of the runs known before, exactly those ended that had ended. */
  ghost predicate Kept(runs: RunTable, before: set<RunId>, ends: seq<RunId>)
    reads runs
  {
    runs.Valid() && before <= runs.started && forall r | r in before :: r in runs.ends <==> r in ends
  }

  /** Start a child run and prepare in it; without anything to execute it is ended at once. */
  method PrepareChild(runs: RunTable, round: Round, ghost before: set<RunId>, ghost ends: seq<RunId>)
    requires Kept(runs, before, ends) && StillOpen(runs.started, runs.ends, before) == {}
    requires runs.next <= round.child
    modifies runs
    ensures Kept(runs, before, ends)
    ensures runs.next <= round.child + 1
    ensures round.preparation.PrepareOk? ==>
              && round.child !in before && runs.Open(round.child)
              && StillOpen(runs.started, runs.ends, before) == {round.child}
    ensures !round.preparation.PrepareOk? ==> StillOpen(runs.started, runs.ends, before) == {}
  {
    if round.preparation.RunNotStarted? {
      return;
    }
    runs.StartRun(round.child);
    assert StillOpen(runs.started, runs.ends, before) == {round.child};
    if !round.preparation.PrepareOk? {
      Ending(runs.started, runs.ends, before, round.child);
      var _ := runs.EndRun(round.child);
    }
  }

  /** Close the parent run; children are not affected. */
  method FinishSession(runs: RunTable, parent: RunId, ghost before: set<RunId>)
    requires runs.Valid() && runs.Open(parent) && parent in before
    modifies runs`ends
    ensures runs.Valid() && !runs.Open(parent)
    ensures StillOpen(runs.started, runs.ends, before) == old(StillOpen(runs.started, runs.ends, before))
  {
    Ending(runs.started, runs.ends, before, parent);
    var _ := runs.EndRun(parent);
  }

  /** A delegated session: one child, then the parent. */
  method ExecuteAgentSession(runs: RunTable, parent: RunId, round: Round) returns (abandoned: bool)
    requires runs.Valid() && runs.Open(parent) && RoundOk(round) && runs.next <= round.child
    modifies runs
    ensures runs.Valid() && !runs.Open(parent)
    ensures abandoned <==> !round.cancelledBefore && round.preparation.PrepareOk? && Abandons(round)
    ensures StillOpen(runs.started, runs.ends, old(runs.started)) == {} <==> !abandoned
  {
    ghost var before := runs.started;
    abandoned := false;
    if !round.cancelledBefore {
      PrepareChild(runs, round, before, runs.ends);
      if round.preparation.PrepareOk? {
        Ending(runs.started, runs.ends, before, round.child);
        var _ := RunChild(runs, true, round);
        abandoned := Abandons(round);
      }
    }
    FinishSession(runs, parent, before);
  }

  /** Why a plain session does not go on after a round. */
  datatype Stop = GoesOn | CancelledBefore | NothingLeft | NotPrepared | Unsettled | SessionDone

  /**
    What a round comes to, given the work that is next: only a refused tool call, or a settled
    child whose result the session can go on with, leads to another round.
   */
  function RoundStop(round: Round, next: seq<Work>): Stop {
    if round.cancelledBefore then CancelledBefore
    else if next == [] then NothingLeft
    else if !round.preparation.PrepareOk? then if Prepares(next[0], round.preparation).Continue? then GoesOn else NotPrepared
    else if Unsettles(false, round) then Unsettled
    else if Settles(next[0], round.result).Continue? then GoesOn
    else SessionDone
  }

  /** The session has no queued call and no iteration left. */
  predicate Exhausted(chat: PlainChat)
    reads chat
  {
    chat.queue == [] && chat.iterations >= chat.maxIterations
  }

  /** One round of a plain session: all its runs are closed, unless the round abandons its child. */
  method PlainRound(runs: RunTable, chat: PlainChat, round: Round, ghost before: set<RunId>, ghost ends: seq<RunId>)
    returns (why: Stop)
    requires Kept(runs, before, ends) && StillOpen(runs.started, runs.ends, before) == {} && chat.Valid([])
    requires RoundOk(round) && runs.next <= round.child
    modifies runs, chat
    ensures Kept(runs, before, ends)
    ensures runs.next <= round.child + 1
    ensures StillOpen(runs.started, runs.ends, before) == {} <==> !EndsOpen(round, why)
    ensures why == RoundStop(round, old(chat.Next())) && Orderly(chat.log)
    ensures Tries(chat.log) == old(Tries(chat.log)) + if round.cancelledBefore then [] else old(chat.Next())
    ensures why.NothingLeft? ==> Exhausted(chat)
    ensures why.GoesOn? ==> chat.Valid([]) && chat.iterations >= old(chat.iterations)
    ensures why.GoesOn? && chat.iterations == old(chat.iterations) ==> |chat.queue| < |old(chat.queue)|
  {
    hide *;
    ValidIsOrderly(chat);
    RoundStopMeans(round, chat.Next());
    NextOrNothing(chat);
    if round.cancelledBefore {
      return CancelledBefore;
    }
    if chat.Next() == [] {
      return NothingLeft;
    }
    var step := chat.PrepareNext(round.preparation);
    PrepareChild(runs, round, before, ends);
    if step.Continue? {
      return GoesOn;
    }
    if !step.Execute? {
      return NotPrepared;
    }
    why := SettleRound(runs, chat, step.work, round, before, ends);
  }

  /** The child is run to its end, and the session goes on with its result if it can. */
  method SettleRound(runs: RunTable, chat: PlainChat, work: Work, round: Round, ghost before: set<RunId>, ghost ends: seq<RunId>)
    returns (why: Stop)
    requires Kept(runs, before, ends) && runs.Open(round.child) && round.child !in before
    requires StillOpen(runs.started, runs.ends, before) == {round.child}
    requires chat.Valid([work]) && RoundOk(round)
    modifies runs`ends, chat
    ensures Kept(runs, before, ends)
    ensures StillOpen(runs.started, runs.ends, before) == {} <==> !Abandons(round)
    ensures why == if Unsettles(false, round) then Unsettled else if Settles(work, round.result).Continue? then GoesOn else SessionDone
    ensures Orderly(chat.log) && Tries(chat.log) == old(Tries(chat.log))
    ensures why.GoesOn? ==> chat.Valid([])
    ensures why.GoesOn? ==> if work.Generate? then chat.iterations == old(chat.iterations) + 1
                            else chat.iterations == old(chat.iterations) && chat.queue == old(chat.queue)
  {
    InFlightOrderly(work, chat.log, chat.last, chat.queue);
    hide OwedBy, Waits, AtModel, Orderly, Answered, Abandons, AnsweredApart, Unsettles, RoundOk, Tries;
    Ending(runs.started, runs.ends, before, round.child);
    var settled := RunChild(runs, false, round);
    if !settled {
      return Unsettled;
    }
    var next := chat.FinalizeNext(work, round.result);
    return if next.Continue? then GoesOn else SessionDone;
  }

  lemma RoundStopMeans(round: Round, next: seq<Work>)
    ensures round.cancelledBefore ==> RoundStop(round, next) == CancelledBefore
    ensures !round.cancelledBefore && next == [] ==> RoundStop(round, next) == NothingLeft
    ensures !round.cancelledBefore && next != [] && !round.preparation.PrepareOk? ==>
              RoundStop(round, next) == if Prepares(next[0], round.preparation).Continue? then GoesOn else NotPrepared
    ensures !round.cancelledBefore && next != [] && round.preparation.PrepareOk? ==>
              RoundStop(round, next) == if Unsettles(false, round) then Unsettled
                                        else if Settles(next[0], round.result).Continue? then GoesOn else SessionDone
    ensures next != [] ==> (Prepares(next[0], round.preparation).Execute? <==> round.preparation.PrepareOk?)
    ensures next != [] && Prepares(next[0], round.preparation).Continue? ==> next[0].CallTool?
    ensures next != [] && round.preparation.PrepareOk? ==> Prepares(next[0], round.preparation) == Execute(next[0])
    ensures forall why :: EndsOpen(round, why) <==> why.Unsettled? && Abandons(round)
    ensures Abandons(round) ==> Unsettles(false, round)
  {
  }

  lemma NextOrNothing(chat: PlainChat)
    ensures |chat.Next()| <= 1 && (chat.Next() == [] <==> Exhausted(chat))
    ensures chat.queue != [] ==> chat.Next() == [CallTool(chat.queue[0])]
    ensures chat.queue == [] && chat.Next() != [] ==> chat.Next() == [Generate]
  {
  }

  lemma ValidIsOrderly(chat: PlainChat)
    requires chat.Valid([])
    ensures Orderly(chat.log) && chat.iterations <= chat.maxIterations
  {
  }

  /** The round stopped the session and left its child open. */
  predicate EndsOpen(round: Round, why: Stop) {
    why.Unsettled? && Abandons(round)
  }

  /** The round with this index prepared its child. */
  predicate Reached(env: nat -> Round, k: nat, last: nat, why: Stop) {
    k <= last && !env(k).cancelledBefore && env(k).preparation.PrepareOk? && (k == last ==> !why.NothingLeft?)
  }

  /** Each round before `last` goes on, given the work that was next, and the last one stops the session. */
  predicate Proceeded(env: nat -> Round, works: seq<seq<Work>>, last: nat, why: Stop) {
    && |works| == last + 1 && !why.GoesOn? && RoundStop(env(last), works[last]) == why
    && (forall k: nat | k < last :: RoundStop(env(k), works[k]).GoesOn?)
  }

  lemma LastDecides(env: nat -> Round, works: seq<seq<Work>>, last: nat, why: Stop)
    requires Proceeded(env, works, last, why)
    ensures EndsOpen(env(last), why) <==> !(forall k: nat | Reached(env, k, last, why) :: !Abandons(env(k)))
  {
    if EndsOpen(env(last), why) {
      assert Reached(env, last, last, why);
    }
    forall k: nat | k < last && Reached(env, k, last, why) ensures !Abandons(env(k)) {
      assert RoundStop(env(k), works[k]).GoesOn?;
    }
  }

  function Joined(works: seq<seq<Work>>): seq<Work> {
    if works == [] then [] else Joined(works[..|works| - 1]) + works[|works| - 1]
  }

  /** Every round has a kernel of its own to abort in, and child runs get ever higher ids. */
  ghost predicate EnvOk(env: nat -> Round, next: RunId) {
    && (forall k: nat :: RoundOk(env(k))) && next <= env(0).child
    && (forall k: nat :: env(k).child < env(k + 1).child)
  }

  /** Round after round until the session completes, fails or is cancelled. */
  method PlainRounds(runs: RunTable, chat: PlainChat, env: nat -> Round, ghost before: set<RunId>, ghost ends: seq<RunId>)
    returns (last: nat, why: Stop, ghost works: seq<seq<Work>>)
    requires Kept(runs, before, ends) && StillOpen(runs.started, runs.ends, before) == {} && chat.Valid([])
    requires EnvOk(env, runs.next)
    modifies runs, chat
    ensures Kept(runs, before, ends) && Proceeded(env, works, last, why) && works != []
    ensures Tries(chat.log) == AllTried(old(Tries(chat.log)), works, why)
    ensures StillOpen(runs.started, runs.ends, before) == {} <==> !EndsOpen(env(last), why)
    ensures (why.NothingLeft? ==> Exhausted(chat)) && Orderly(chat.log)
  {
    hide *;
    last := 0;
    RoundsOk(env, runs.next);
    works := [chat.Next()];
    why := PlainRound(runs, chat, env(0), before, ends);
    FirstTry(old(Tries(chat.log)), works[0], env(0), why);
    while why.GoesOn?
      invariant Kept(runs, before, ends) && runs.next <= env(last).child + 1
      invariant (why.GoesOn? ==> chat.Valid([])) && Orderly(chat.log)
      invariant StillOpen(runs.started, runs.ends, before) == {} <==> !EndsOpen(env(last), why)
      invariant |works| == last + 1 && RoundStop(env(last), works[last]) == why
      invariant forall k: nat | k < last :: RoundStop(env(k), works[k]).GoesOn?
      invariant Tries(chat.log) == AllTried(old(Tries(chat.log)), works, why)
      invariant why.NothingLeft? ==> Exhausted(chat)
      decreases if why.GoesOn? then 1 else 0, chat.maxIterations - chat.iterations, |chat.queue|
    {
      ValidIsOrderly(chat);
      NothingEndsOpen(env(last), why);
      NextRound(env, old(runs.next), last);
      ghost var earlier, next := works, chat.Next();
      last, works := last + 1, works + [chat.Next()];
      why := PlainRound(runs, chat, env(last), before, ends);
      NextTry(old(Tries(chat.log)), earlier, next, env(last), why);
    }
    AsProceeded(env, works, last, why);
  }

  /** What was tried before, and then each round's work, the last one's only if the session was not cancelled first. */
  function AllTried(tried: seq<Work>, works: seq<seq<Work>>, why: Stop): seq<Work>
    requires works != []
  {
    tried + Joined(works[..|works| - 1]) + if why.CancelledBefore? then [] else works[|works| - 1]
  }

  lemma AsProceeded(env: nat -> Round, works: seq<seq<Work>>, last: nat, why: Stop)
    requires |works| == last + 1 && !why.GoesOn? && RoundStop(env(last), works[last]) == why
    requires forall k: nat | k < last :: RoundStop(env(k), works[k]).GoesOn?
    ensures Proceeded(env, works, last, why)
  {
  }

  lemma FirstTry(tried: seq<Work>, next: seq<Work>, round: Round, why: Stop)
    requires why == RoundStop(round, next)
    ensures AllTried(tried, [next], why) == tried + if round.cancelledBefore then [] else next
  {
  }

  lemma NextTry(tried: seq<Work>, works: seq<seq<Work>>, next: seq<Work>, round: Round, why: Stop)
    requires works != [] && why == RoundStop(round, next)
    ensures AllTried(tried, works + [next], why) == AllTried(tried, works, GoesOn) + if round.cancelledBefore then [] else next
  {
    assert (works + [next])[..|works|] == works;
  }

  lemma NothingEndsOpen(round: Round, why: Stop)
    requires why.GoesOn?
    ensures !EndsOpen(round, why)
  {
  }

  lemma RoundsOk(env: nat -> Round, next: RunId)
    requires EnvOk(env, next)
    ensures RoundOk(env(0)) && next <= env(0).child
  {
    hide RoundOk;
  }

  lemma NextRound(env: nat -> Round, next: RunId, k: nat)
    requires EnvOk(env, next)
    ensures RoundOk(env(k + 1)) && env(k).child + 1 <= env(k + 1).child
  {
    hide RoundOk;
    assert env(k).child < env(k + 1).child;
  }

  /**
    A plain session. It goes on through the rounds before `last`, and `why` says what
    stopped it there; each round tries the work that is then next, and the calls of every
    response take their turns. When it returns, every run it started has ended, exactly
    once, exactly if no round it reached was cancelled between preparing and approval
    while the kernel had already let go of the reservation.
   */
  method ExecutePlainSession(runs: RunTable, parent: RunId, chat: PlainChat, env: nat -> Round)
    returns (last: nat, why: Stop, ghost works: seq<seq<Work>>)
    requires runs.Valid() && runs.Open(parent) && chat.Valid([]) && EnvOk(env, runs.next)
    modifies runs, chat
    ensures runs.Valid() && !runs.Open(parent)
    ensures Proceeded(env, works, last, why) && works != [] && (why.NothingLeft? ==> Exhausted(chat))
    ensures Tries(chat.log) == AllTried(old(Tries(chat.log)), works, why) && Orderly(chat.log)
    ensures StillOpen(runs.started, runs.ends, old(runs.started)) == {} <==>
            forall k: nat | Reached(env, k, last, why) :: !Abandons(env(k))
  {
    hide EnvOk, Abandons, Proceeded, EndsOpen, Orderly;
    ghost var before := runs.started;
    assert StillOpen(runs.started, runs.ends, before) == {};
    last, why, works := PlainRounds(runs, chat, env, before, runs.ends);
    FinishSession(runs, parent, before);
    LastDecides(env, works, last, why);
  }
}
