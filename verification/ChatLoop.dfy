/**
  The plain chat session: generate, run the tool calls the model asked for, report
  each result, generate again, up to a limit.
 */
module ChatLoop {

  type CallId = nat

  /** A tool call of the model; it may name no known tool or carry unreadable arguments. */
  datatype ToolCall = ToolCall(id: CallId, known: bool, readable: bool)

  datatype Message = Plain | Assistant(calls: seq<ToolCall>) | Tool(id: CallId)

  /** The ids of the calls from position `n` on. */
  function CallIds(calls: seq<ToolCall>, n: nat): multiset<CallId>
    decreases |calls| - n
  {
    if |calls| <= n then multiset{} else multiset{calls[n].id} + CallIds(calls, n + 1)
  }

  /** The ids of the tool messages from position `i` up to `j`. */
  function ToolIds(t: seq<Message>, i: nat, j: nat): multiset<CallId>
    requires j <= |t|
  {
    if j <= i then multiset{}
    else ToolIds(t, i, j - 1) + if t[j - 1].Tool? then multiset{t[j - 1].id} else multiset{}
  }

  // ----- What a well-formed transcript is -----

  /** The messages from `i` up to `j` are what follows one assistant message. */
  predicate IsBlock(t: seq<Message>, i: nat, j: nat) {
    && 0 < i <= j <= |t| && t[i - 1].Assistant? && (forall k | i <= k < j :: !t[k].Assistant?)
    && (j == |t| || t[j].Assistant?)
  }

  /** Between an assistant message and the next, every call is answered exactly once and nothing else is. */
  ghost predicate Answered(t: seq<Message>) {
    forall i: nat, j: nat | IsBlock(t, i, j) :: ToolIds(t, i, j) == CallIds(t[i - 1].calls, 0)
  }

  // ----- The same, message by message -----

  /** The calls of the last assistant message that are not answered yet, as long as all is in order. */
  datatype Owed = InOrder(calls: multiset<CallId>) | OutOfOrder

  function After(o: Owed, m: Message): Owed {
    match o
    case OutOfOrder => OutOfOrder
    case InOrder(calls) =>
      match m
      case Plain => o
      case Assistant(next) => if calls == multiset{} then InOrder(CallIds(next, 0)) else OutOfOrder
      case Tool(id) => if id in calls then InOrder(calls - multiset{id}) else OutOfOrder
  }

  function OwedAt(t: seq<Message>, j: nat): Owed
    requires j <= |t|
  {
    if j == 0 then InOrder(multiset{}) else After(OwedAt(t, j - 1), t[j - 1])
  }

  function OwedBy(t: seq<Message>): Owed {
    OwedAt(t, |t|)
  }

  lemma {:induction false} OwedSame(t: seq<Message>, m: Message, j: nat)
    requires j <= |t|
    ensures OwedAt(t + [m], j) == OwedAt(t, j)
  {
    if j > 0 {
      OwedSame(t, m, j - 1);
    }
  }

  lemma OwedAppend(t: seq<Message>, m: Message)
    ensures OwedBy(t + [m]) == After(OwedBy(t), m)
  {
    OwedSame(t, m, |t|);
  }

  lemma Answers(t: seq<Message>, id: CallId, rest: multiset<CallId>)
    requires OwedBy(t) == InOrder(rest + multiset{id})
    ensures OwedBy(t + [Tool(id)]) == InOrder(rest)
  {
    hide OwedBy;
    OwedAppend(t, Tool(id));
    assert rest + multiset{id} - multiset{id} == rest;
  }

  lemma Asks(t: seq<Message>, calls: seq<ToolCall>)
    requires OwedBy(t) == InOrder(multiset{})
    ensures OwedBy(t + [Assistant(calls)]) == InOrder(CallIds(calls, 0))
  {
    hide OwedBy, CallIds;
    OwedAppend(t, Assistant(calls));
  }

  lemma Front(q: seq<CallId>)
    requires q != []
    ensures multiset(q) == multiset(q[1..]) + multiset{q[0]}
  {
    assert q == [q[0]] + q[1..];
  }

  lemma Back(q: seq<CallId>, id: CallId, rest: multiset<CallId>)
    ensures multiset(q + [id]) + rest == multiset(q) + (multiset{id} + rest)
    ensures multiset(q) + (multiset{id} + rest) == multiset(q) + rest + multiset{id}
  {
  }

  /** The next call is answered, or moves to the queue. */
  lemma OneCall(t: seq<Message>, queue: seq<CallId>, calls: seq<ToolCall>, n: nat)
    requires n < |calls| && OwedBy(t) == InOrder(multiset(queue) + CallIds(calls, n))
    ensures OwedBy(t + [Tool(calls[n].id)]) == InOrder(multiset(queue) + CallIds(calls, n + 1))
    ensures multiset(queue + [calls[n].id]) + CallIds(calls, n + 1) == multiset(queue) + CallIds(calls, n)
  {
    hide OwedBy;
    var rest := CallIds(calls, n + 1);
    Back(queue, calls[n].id, rest);
    Answers(t, calls[n].id, multiset(queue) + rest);
  }

  lemma {:induction false} OrderedBefore(t: seq<Message>, i: nat, j: nat)
    requires i <= j <= |t| && OwedAt(t, j).InOrder?
    ensures OwedAt(t, i).InOrder?
    decreases j
  {
    if i < j {
      OrderedBefore(t, i, j - 1);
    }
  }

  /** One message of a block: what is owed and what is answered together stay the same. */
  lemma BlockStep(o: Owed, m: Message, answered: multiset<CallId>)
    requires o.InOrder? && After(o, m).InOrder? && !m.Assistant?
    ensures After(o, m).calls + (answered + if m.Tool? then multiset{m.id} else multiset{}) == o.calls + answered
  {
    if m.Tool? {
      assert o.calls == (o.calls - multiset{m.id}) + multiset{m.id};
    }
  }

  /** Within a block, what is still owed is what was called minus what was answered. */
  lemma {:induction false} OwedInBlock(t: seq<Message>, i: nat, j: nat)
    requires 0 < i <= j <= |t| && t[i - 1].Assistant? && (forall k | i <= k < j :: !t[k].Assistant?) && OwedAt(t, j).InOrder?
    ensures OwedAt(t, j).calls + ToolIds(t, i, j) == CallIds(t[i - 1].calls, 0)
    decreases j
  {
    if i < j {
      OrderedBefore(t, j - 1, j);
      OwedInBlock(t, i, j - 1);
      BlockStep(OwedAt(t, j - 1), t[j - 1], ToolIds(t, i, j - 1));
    }
  }

  lemma BlockAnswered(t: seq<Message>, i: nat, j: nat)
    requires OwedBy(t) == InOrder(multiset{}) && IsBlock(t, i, j)
    ensures ToolIds(t, i, j) == CallIds(t[i - 1].calls, 0)
  {
    OrderedBefore(t, j, |t|);
    OwedInBlock(t, i, j);
    if j < |t| {
      OrderedBefore(t, j + 1, |t|);
    }
  }

  /** A transcript that owes nothing is well formed. */
  lemma NothingOwedIsAnswered(t: seq<Message>)
    requires OwedBy(t) == InOrder(multiset{})
    ensures Answered(t)
  {
    forall i: nat, j: nat | IsBlock(t, i, j) ensures ToolIds(t, i, j) == CallIds(t[i - 1].calls, 0) {
      BlockAnswered(t, i, j);
    }
  }

  // ----- Taking calls in turn -----

  /** The call names a known tool and its arguments can be read. */
  predicate Makeable(c: ToolCall) {
    c.known && c.readable
  }

  /** `at` lists, in ascending order, exactly the positions of the calls that can be made, or of those that cannot. */
  ghost predicate Positions(calls: seq<ToolCall>, at: seq<nat>, makeable: bool) {
    && (forall j, k | 0 <= j < k < |at| :: at[j] < at[k])
    && (forall k | 0 <= k < |at| :: at[k] < |calls| && Makeable(calls[at[k]]) == makeable)
    && (forall i | 0 <= i < |calls| && Makeable(calls[i]) == makeable :: i in at)
  }

  /** The ids of the calls at these positions. */
  ghost predicate IdsAt(calls: seq<ToolCall>, at: seq<nat>, ids: seq<CallId>) {
    |ids| == |at| && forall k | 0 <= k < |at| :: at[k] < |calls| && ids[k] == calls[at[k]].id
  }

  /** One answer for each of the calls at these positions follows, in order. */
  ghost predicate RepliesAt(calls: seq<ToolCall>, at: seq<nat>, before: seq<Message>, after: seq<Message>) {
    && |after| == |before| + |at| && before <= after
    && forall k | 0 <= k < |at| :: at[k] < |calls| && after[|before| + k] == Tool(calls[at[k]].id)
  }

  /** Exactly the calls that cannot be made are answered, in order. */
  ghost predicate AnsweredApart(calls: seq<ToolCall>, before: seq<Message>, after: seq<Message>) {
    exists at :: Positions(calls, at, false) && RepliesAt(calls, at, before, after)
  }

  lemma Apart(calls: seq<ToolCall>, at: seq<nat>, before: seq<Message>, after: seq<Message>)
    requires Positions(calls, at, false) && RepliesAt(calls, at, before, after)
    ensures AnsweredApart(calls, before, after)
  {
  }

  lemma OneMore(calls: seq<ToolCall>, at: seq<nat>, ids: seq<CallId>, before: seq<Message>, after: seq<Message>, n: nat)
    requires n < |calls|
    ensures IdsAt(calls, at, ids) ==> IdsAt(calls, at + [n], ids + [calls[n].id])
    ensures RepliesAt(calls, at, before, after) ==> RepliesAt(calls, at + [n], before, after + [Tool(calls[n].id)])
  {
  }

  datatype Work = Generate | CallTool(id: CallId)

  /** What a session does: it tries to prepare work, and takes the calls of an accepted response with their turns. */
  datatype Entry = Tried(work: Work) | Took(calls: seq<ToolCall>, turns: seq<nat>)

  /** The work tried, in order. */
  function Tries(log: seq<Entry>): seq<Work> {
    if log == [] then []
    else Tries(log[..|log| - 1]) + if log[|log| - 1].Tried? then [log[|log| - 1].work] else []
  }

  lemma OneEntry(log: seq<Entry>, e: Entry)
    ensures Tries(log + [e]) == Tries(log) + if e.Tried? then [e.work] else []
  {
    assert (log + [e])[..|log|] == log;
  }

  /** The calls taken at `i` that can be made are tried next, one after the other, and then the model again. */
  ghost predicate TakesTurns(log: seq<Entry>, i: int)
    requires 0 <= i < |log| && log[i].Took?
  {
    var calls, turns := log[i].calls, log[i].turns;
    && Positions(calls, turns, true)
    && (forall k | 0 <= k < |turns| && i + 1 + k < |log| :: log[i + 1 + k] == Tried(CallTool(calls[turns[k]].id)))
    && (i + 1 + |turns| < |log| ==> log[i + 1 + |turns|] == Tried(Generate))
    && (forall j | i < j < |log| && log[j].Took? :: i + 1 + |turns| < j)
  }

  /** Every response is taken after the model was tried, and its calls take their turns. */
  ghost predicate Orderly(log: seq<Entry>) {
    && (log != [] ==> log[0] == Tried(Generate))
    && (forall i | 0 <= i < |log| && log[i].Took? :: 0 < i && log[i - 1] == Tried(Generate) && TakesTurns(log, i))
  }

  /** What is queued are the calls taken last whose turn is yet to come. */
  ghost predicate Waits(log: seq<Entry>, last: int, queue: seq<CallId>) {
    && Orderly(log) && -1 <= last < |log|
    && (last == -1 ==> log == [] && queue == [])
    && (last >= 0 ==>
          && log[last].Took? && (forall j | last < j < |log| :: log[j].Tried?)
          && var calls, turns, n := log[last].calls, log[last].turns, |log| - last - 1;
          && n + |queue| == |turns| && forall k | 0 <= k < |queue| :: queue[k] == calls[turns[n + k]].id)
  }

  lemma NextKeepsTurns(log: seq<Entry>, last: int, queue: seq<CallId>)
    requires Waits(log, last, queue) && queue != []
    ensures forall i | 0 <= i < |log| && log[i].Took? :: TakesTurns(log + [Tried(CallTool(queue[0]))], i)
  {
    forall i | 0 <= i < |log| && log[i].Took? ensures TakesTurns(log + [Tried(CallTool(queue[0]))], i) {
      assert TakesTurns(log, last) && (i < last ==> TakesTurns(log, i) && log[last].Took?);
      OneTry(log, i, CallTool(queue[0]));
    }
  }

  lemma TriesNext(log: seq<Entry>, last: int, queue: seq<CallId>)
    requires Waits(log, last, queue) && queue != []
    ensures Waits(log + [Tried(CallTool(queue[0]))], last, queue[1..])
  {
    hide Orderly, TakesTurns;
    NextKeepsTurns(log, last, queue);
    MoreOrderly(log, Tried(CallTool(queue[0])));
  }

  /** One more try keeps the turns of the calls taken at `i` if it is what their order asks for. */
  lemma OneTry(log: seq<Entry>, i: int, work: Work)
    requires 0 <= i < |log| && log[i].Took? && TakesTurns(log, i)
    requires var n := |log| - i - 1;
             && (n < |log[i].turns| ==> work == CallTool(log[i].calls[log[i].turns[n]].id))
             && (n == |log[i].turns| ==> work == Generate)
    ensures TakesTurns(log + [Tried(work)], i)
  {
  }

  lemma MoreOrderly(log: seq<Entry>, e: Entry)
    requires Orderly(log) && e.Tried? && (log == [] ==> e == Tried(Generate))
    requires forall i | 0 <= i < |log| && log[i].Took? :: TakesTurns(log + [e], i)
    ensures Orderly(log + [e])
  {
    hide TakesTurns;
    var log' := log + [e];
    assert forall i | 0 <= i < |log| :: log'[i] == log[i];
  }

  lemma TriesModel(log: seq<Entry>, last: int)
    requires Waits(log, last, [])
    ensures Orderly(log + [Tried(Generate)])
    ensures forall i | 0 <= i < |log| && log[i].Took? :: i + 1 + |log[i].turns| <= |log|
  {
    forall i | 0 <= i < |log| && log[i].Took?
      ensures TakesTurns(log + [Tried(Generate)], i) && i + 1 + |log[i].turns| <= |log|
    {
      assert TakesTurns(log, last) && (i < last ==> TakesTurns(log, i) && log[last].Took?);
      OneTry(log, i, Generate);
    }
    MoreOrderly(log, Tried(Generate));
  }

  /** The model was tried last, and every earlier call had its turn. */
  ghost predicate AtModel(log: seq<Entry>) {
    && Orderly(log) && log != [] && log[|log| - 1] == Tried(Generate)
    && forall i | 0 <= i < |log| && log[i].Took? :: i + 1 + |log[i].turns| < |log|
  }

  lemma TakesCalls(log: seq<Entry>, calls: seq<ToolCall>, turns: seq<nat>, queue: seq<CallId>)
    requires AtModel(log) && Positions(calls, turns, true) && IdsAt(calls, turns, queue)
    ensures Waits(log + [Took(calls, turns)], |log|, queue)
  {
    var log' := log + [Took(calls, turns)];
    forall i | 0 <= i < |log'| && log'[i].Took? ensures 0 < i && log'[i - 1] == Tried(Generate) && TakesTurns(log', i) {
      if i < |log| {
        assert log'[i] == log[i] && TakesTurns(log, i);
      }
    }
  }

  // ----- The session -----

  /** How preparing a child invocation can end. */
  datatype Preparation = RunNotStarted | PrepareFailed | PrepareRefused(cancelled: bool) | PrepareOk

  datatype Response = Unreadable | Text | Calls(calls: seq<ToolCall>)

  /** How a child invocation can end; only generating has a response. */
  datatype Result = RunNotEnded | Cancelled | Refused | Failed | Completed(response: Response)

  datatype Step = Complete | Continue | Execute(work: Work) | Error

  /** What preparing the work comes to: only a tool call may be refused without ending the session. */
  function Prepares(work: Work, outcome: Preparation): Step {
    match outcome
    case PrepareOk => Execute(work)
    case RunNotStarted => Error
    case PrepareFailed => Complete
    case PrepareRefused(cancelled) => if work.CallTool? && !cancelled then Continue else Complete
  }

  /**
    What the work's result comes to: the session goes on after any result of a tool call that is
    neither lost nor cancelled, and after a response with calls; any other response completes it.
   */
  function Settles(work: Work, result: Result): Step {
    match result
    case RunNotEnded => Error
    case Cancelled => Complete
    case Refused => if work.CallTool? then Continue else Error
    case Failed => if work.CallTool? then Continue else Error
    case Completed(response) =>
      if work.CallTool? then Continue
      else if response.Unreadable? then Error
      else if response.Calls? && response.calls != [] then Continue
      else Complete
  }

  class PlainChat {
    var transcript: seq<Message>
    var queue: seq<CallId>
    var iterations: nat
    const maxIterations: nat
    ghost var log: seq<Entry>
    ghost var last: int

    /** What is owed is queued or in progress; nothing is queued while the model generates. */
    ghost predicate Valid(inFlight: seq<Work>)
      reads this
    {
      && |inFlight| <= 1 && iterations <= maxIterations
      && OwedBy(transcript) == InOrder(multiset(queue) + InFlight(inFlight))
      && if inFlight == [Generate] then queue == [] && iterations < maxIterations && AtModel(log) else Waits(log, last, queue)
    }

    ghost function InFlight(inFlight: seq<Work>): multiset<CallId>
      requires |inFlight| <= 1
    {
      if inFlight != [] && inFlight[0].CallTool? then multiset{inFlight[0].id} else multiset{}
    }

    constructor (transcript: seq<Message>, maxIterations: nat)
      requires forall m | m in transcript :: m.Plain?
      ensures Valid([]) && this.maxIterations == maxIterations && iterations == 0 && this.transcript == transcript
    {
      this.transcript, this.queue, this.iterations, this.maxIterations := transcript, [], 0, maxIterations;
      this.log, this.last := [], -1;
      new;
      PlainOwesNothing(transcript, |transcript|);
    }

    /** The work that is next: the first queued call, or generating while that is allowed. */
    function Next(): (r: seq<Work>)
      reads this
    {
      if queue != [] then [CallTool(queue[0])] else if iterations < maxIterations then [Generate] else []
    }

    /**
      Prepare the next child invocation. A queued call leaves the queue and, if it is refused, is
      answered; the model is asked only with a well-formed transcript; without either the session
      is over.
     */
    method PrepareNext(outcome: Preparation) returns (step: Step)
      requires Valid([])
      modifies this
      ensures iterations == old(iterations) && queue == if old(queue) == [] then [] else old(queue)[1..]
      ensures step == if old(Next()) == [] then Complete else Prepares(old(Next())[0], outcome)
      ensures transcript == old(transcript) + if step.Continue? then [Tool(old(queue)[0])] else []
      ensures Orderly(log) && Tries(log) == old(Tries(log)) + old(Next())
      ensures step.Execute? ==> Valid([step.work])
      ensures step.Continue? ==> Valid([])
      ensures step == Execute(Generate) ==> Answered(transcript)
    {
      hide OwedBy, Orderly, Waits, AtModel, Tries;
      if queue != [] {
        var id := queue[0];
        Front(queue);
        TriesNext(log, last, queue);
        OneEntry(log, Tried(CallTool(id)));
        log := log + [Tried(CallTool(id))];
        queue := queue[1..];
        StillOrderly(log, last, queue);
        match outcome
        case RunNotStarted => return Error;
        case PrepareFailed => return Complete;
        case PrepareOk => return Execute(CallTool(id));
        case PrepareRefused(cancelled) =>
          if cancelled {
            return Complete;
          }
          Answers(transcript, id, multiset(queue));
          transcript := transcript + [Tool(id)];
          return Continue;
      }
      if iterations >= maxIterations {
        StillOrderly(log, last, queue);
        return Complete;
      }
      TriesModel(log, last);
      ModelTried(log);
      OneEntry(log, Tried(Generate));
      log := log + [Tried(Generate)];
      match outcome
      case RunNotStarted => return Error;
      case PrepareOk =>
        NothingOwedIsAnswered(transcript);
        return Execute(Generate);
      case _ => return Complete;
    }

    /**
      Finalize a child invocation. The calls of a response are taken: those that can be made are
      queued in order, the others are answered at once, and generating uses up an iteration. A
      tool call is answered.
     */
    method FinalizeNext(work: Work, result: Result) returns (step: Step)
      requires Valid([work])
      modifies this
      ensures step == Settles(work, result) && Orderly(log) && Tries(log) == old(Tries(log))
      ensures step.Continue? ==> Valid([])
      ensures step.Continue? && work.CallTool? ==>
                && iterations == old(iterations) && queue == old(queue) && log == old(log)
                && transcript == old(transcript) + [Tool(work.id)]
      ensures step.Continue? && work.Generate? ==>
                && iterations == old(iterations) + 1 && |log| == |old(log)| + 1 && old(log) <= log
                && log[|old(log)|].Took? && log[|old(log)|].calls == result.response.calls
                && AnsweredApart(result.response.calls, old(transcript) + [Assistant(result.response.calls)], transcript)
    {
      hide OwedBy, CallIds, Orderly, Waits, AtModel, Positions, IdsAt, RepliesAt, AnsweredApart, Tries;
      InFlightOrderly(work, log, last, queue);
      match result {
        case RunNotEnded => return Error;
        case Cancelled => return Complete;
        case Refused =>
          if work.Generate? {
            return Error;
          }
        case Failed =>
          if work.Generate? {
            return Error;
          }
        case Completed(response) =>
          if work.Generate? {
            if response.Unreadable? {
              return Error;
            }
            iterations := iterations + 1;
            if response.Text? || response.calls == [] {
              return Complete;
            }
            Asks(transcript, response.calls);
            transcript := transcript + [Assistant(response.calls)];
            ghost var turns, others := QueueToolCalls(response.calls);
            Apart(response.calls, others, old(transcript) + [Assistant(response.calls)], transcript);
            TakesCalls(log, response.calls, turns, queue);
            OneEntry(log, Took(response.calls, turns));
            last := |log|;
            log := log + [Took(response.calls, turns)];
            StillOrderly(log, last, queue);
            return Continue;
          }
      }
      Answers(transcript, work.id, multiset(queue));
      transcript := transcript + [Tool(work.id)];
      return Continue;
    }

    /**
      Queue the calls. Afterwards the queue holds the ids of exactly the calls that can be made, in
      order, and the transcript has one answer for each other call, in order.
     */
    method QueueToolCalls(calls: seq<ToolCall>) returns (ghost queued: seq<nat>, ghost answered: seq<nat>)
      requires queue == [] && OwedBy(transcript) == InOrder(CallIds(calls, 0))
      modifies this`transcript, this`queue
      ensures OwedBy(transcript) == InOrder(multiset(queue))
      ensures Positions(calls, queued, true) && Positions(calls, answered, false)
      ensures IdsAt(calls, queued, queue) && RepliesAt(calls, answered, old(transcript), transcript)
    {
      NothingListed(calls, transcript);
      hide OwedBy, Positions, IdsAt, RepliesAt;
      queued, answered := [], [];
      for n := 0 to |calls|
        invariant OwedBy(transcript) == InOrder(multiset(queue) + CallIds(calls, n))
        invariant Positions(calls[..n], queued, true) && Positions(calls[..n], answered, false)
        invariant IdsAt(calls, queued, queue) && RepliesAt(calls, answered, old(transcript), transcript)
      {
        var call := calls[n];
        OneCall(transcript, queue, calls, n);
        OnePosition(calls, queued, true, n);
        OnePosition(calls, answered, false, n);
        OneMore(calls, queued, queue, [], [], n);
        OneMore(calls, answered, [], old(transcript), transcript, n);
        if !call.known || !call.readable {
          transcript := transcript + [Tool(call.id)];
          answered := answered + [n];
        } else {
          queue := queue + [call.id];
          queued := queued + [n];
        }
      }
      assert calls[..|calls|] == calls;
    }
  }

  lemma NothingListed(calls: seq<ToolCall>, t: seq<Message>)
    ensures Positions(calls[..0], [], true) && Positions(calls[..0], [], false)
    ensures IdsAt(calls, [], []) && RepliesAt(calls, [], t, t)
  {
  }

  lemma OnePosition(calls: seq<ToolCall>, at: seq<nat>, makeable: bool, n: nat)
    requires n < |calls| && Positions(calls[..n], at, makeable)
    ensures Positions(calls[..n + 1], if Makeable(calls[n]) == makeable then at + [n] else at, makeable)
  {
    var at' := if Makeable(calls[n]) == makeable then at + [n] else at;
    forall i | 0 <= i < n + 1 && Makeable(calls[..n + 1][i]) == makeable ensures i in at' {
      if i < n {
        assert calls[..n][i] == calls[i] && i in at;
      }
    }
    forall k | 0 <= k < |at'| ensures at'[k] < n + 1 && Makeable(calls[..n + 1][at'[k]]) == makeable {
      if k < |at| {
        assert at[k] < |calls[..n]| && calls[..n][at[k]] == calls[at[k]];
      }
    }
  }

  lemma StillOrderly(log: seq<Entry>, last: int, queue: seq<CallId>)
    requires Waits(log, last, queue)
    ensures Orderly(log)
  {
  }

  lemma ModelTried(log: seq<Entry>)
    requires Orderly(log + [Tried(Generate)]) && forall i | 0 <= i < |log| && log[i].Took? :: i + 1 + |log[i].turns| <= |log|
    ensures AtModel(log + [Tried(Generate)])
  {
  }

  lemma InFlightOrderly(work: Work, log: seq<Entry>, last: int, queue: seq<CallId>)
    requires if work == Generate then AtModel(log) else Waits(log, last, queue)
    ensures Orderly(log)
  {
  }

  lemma {:induction false} PlainOwesNothing(t: seq<Message>, j: nat)
    requires j <= |t| && forall m | m in t :: m.Plain?
    ensures OwedAt(t, j) == InOrder(multiset{})
  {
    if j > 0 {
      assert t[j - 1] in t;
      PlainOwesNothing(t, j - 1);
    }
  }

  /**
    The whole session, whatever the kernel and the model answer: it ends, it generates at most as
    often as it may, and every call of an accepted response that can be made is tried in order,
    unless the session ends before its turn.
   */
  method RunSession(chat: PlainChat, prepare: nat -> Preparation, finish: nat -> Result) returns (generated: nat)
    requires chat.Valid([]) && chat.iterations == 0
    modifies chat
    ensures generated <= chat.maxIterations && Orderly(chat.log)
  {
    hide OwedBy, Waits, AtModel, Orderly;
    var round := 0;
    generated := 0;
    while true
      invariant chat.Valid([]) && generated == chat.iterations
      decreases chat.maxIterations - chat.iterations, |chat.queue|
    {
      var step := chat.PrepareNext(prepare(round));
      if step.Complete? || step.Error? {
        return;
      }
      if step.Execute? {
        var work := step.work;
        if work.Generate? {
          generated := generated + 1;
        }
        var done := chat.FinalizeNext(work, finish(round));
        if !done.Continue? {
          return;
        }
      }
      round := round + 1;
    }
  }
}
