/**
  The part of a stored transcript that is replayed to the model: the most recent
  replayable messages that fit two limits.
 */
module ConversationHistory {
  import opened Basics
  import opened Text

  datatype Role = User | Assistant | ToolStatus | System

  datatype Status = Pending | Completed | Interrupted | Failed | Cancelled


  datatype ChatMessage = ChatMessage(role: Role, text: string, status: Option<Status>, hasRun: bool)

  datatype Turn = Turn(fromUser: bool, content: string)

  const MAX_HISTORY_MESSAGES := 40
  const MAX_HISTORY_CHARS := 65536
  const SUFFIX := "\n[truncated by Chat]"

  /** The turn a stored message is replayed as, if it is. */
  function HistoryMessage(m: ChatMessage): Option<Turn> {
    if Trim(m.text) == "" then None
    else
      match m.role
      case User => if m.status == Some(Completed) then Some(Turn(true, m.text)) else None
      case Assistant => if m.status != Some(Pending) then Some(Turn(false, m.text)) else None
      case ToolStatus =>
        if m.status == Some(Completed) && m.hasRun then Some(Turn(false, "[tool success] " + Trim(m.text)))
        else if m.status == Some(Failed) then Some(Turn(false, "[tool error] " + Trim(m.text)))
        else None
      case System => None
  }

  function Replayable(transcript: seq<ChatMessage>): seq<Turn> {
    if transcript == [] then []
    else
      var n := |transcript| - 1;
      var last := HistoryMessage(transcript[n]);
      Replayable(transcript[..n]) + if last.Some? then [last.value] else []
  }

  function Chars(turns: seq<Turn>): nat {
    if turns == [] then 0 else |turns[0].content| + Chars(turns[1..])
  }

  predicate Fits(turns: seq<Turn>) {
    |turns| <= MAX_HISTORY_MESSAGES && Chars(turns) <= MAX_HISTORY_CHARS
  }

  function TruncateChars(value: string, limit: nat): string {
    if |value| <= limit then value
    else value[..if |SUFFIX| <= limit then limit - |SUFFIX| else 0] + SUFFIX
  }

  lemma {:induction false} CharsOfSuffix(turns: seq<Turn>, k: nat)
    requires k <= |turns|
    ensures Chars(turns[k..]) <= Chars(turns)
  {
    if k > 0 {
      assert turns[1..][k - 1..] == turns[k..];
      CharsOfSuffix(turns[1..], k - 1);
    }
  }

  lemma SumOfCounts(turns: seq<Turn>, i: nat)
    requires i < |turns|
    ensures Chars(turns[..i + 1]) == Chars(turns[..i]) + |turns[i].content|
    decreases i
  {
    if i > 0 {
      assert turns[..i + 1][1..] == turns[1..][..i] && turns[..i][1..] == turns[1..][..i - 1];
      SumOfCounts(turns[1..], i - 1);
    } else {
      assert turns[..1][1..] == [] && turns[..0] == [];
    }
  }

  method CountChars(turns: seq<Turn>) returns (n: nat)
    ensures n == Chars(turns)
  {
    n := 0;
    for i := 0 to |turns|
      invariant n == Chars(turns[..i])
    {
      SumOfCounts(turns, i);
      n := n + |turns[i].content|;
    }
    assert turns[..|turns|] == turns;
  }

  /** No longer suffix fits. */
  predicate Longest(all: seq<Turn>, k: nat)
    requires k <= |all|
  {
    Fits(all[k..]) && forall j | 0 <= j < k :: !Fits(all[j..])
  }

  lemma NoLongerFits(all: seq<Turn>, k: nat, j: nat)
    requires j < k <= |all| && !Fits(all[k - 1..])
    ensures !Fits(all[j..])
  {
    assert all[j..][k - 1 - j..] == all[k - 1..];
    CharsOfSuffix(all[j..], k - 1 - j);
  }

  /** What dropping leaves: the longest fitting suffix, or the last message alone. */
  predicate Dropped(all: seq<Turn>, h: seq<Turn>) {
    && 1 <= |h| <= |all| && h == all[|all| - |h|..] && |h| <= MAX_HISTORY_MESSAGES
    && (|h| == 1 || Chars(h) <= MAX_HISTORY_CHARS)
    && (|h| < |all| ==> !Fits(all[|all| - |h| - 1..]))
  }

  lemma {:induction false} LastCounts(turns: seq<Turn>)
    requires turns != []
    ensures |turns[|turns| - 1].content| <= Chars(turns) && |turns[0].content| <= Chars(turns)
  {
    if |turns| > 1 {
      LastCounts(turns[1..]);
    }
  }

  lemma DroppedIsLongest(all: seq<Turn>, h: seq<Turn>)
    requires Dropped(all, h)
    ensures |all[|all| - 1].content| <= MAX_HISTORY_CHARS ==>
              Longest(all, |all| - |h|) && |h[0].content| <= MAX_HISTORY_CHARS
    ensures |all[|all| - 1].content| > MAX_HISTORY_CHARS ==> h == [all[|all| - 1]]
  {
    LastCounts(h);
    assert h[|h| - 1] == all[|all| - 1];
    forall j | 0 <= j < |all| - |h| ensures !Fits(all[j..]) {
      NoLongerFits(all, |all| - |h|, j);
    }
  }

  /**
    The longest suffix of the replayable messages within both limits; if the last
    message alone is too long, that message cut to exactly the limit.
   */
  predicate IsHistory(all: seq<Turn>, h: seq<Turn>) {
    if all == [] then h == []
    else
      var last := all[|all| - 1];
      if |last.content| <= MAX_HISTORY_CHARS
      then h != [] && |h| <= |all| && h == all[|all| - |h|..] && Longest(all, |all| - |h|)
      else |h| == 1 && h[0] == last.(content := h[0].content) && |h[0].content| == MAX_HISTORY_CHARS
           && h[0].content == last.content[..MAX_HISTORY_CHARS - |SUFFIX|] + SUFFIX
  }

  lemma CutFirst(all: seq<Turn>, h: seq<Turn>)
    requires Dropped(all, h)
    ensures IsHistory(all, [h[0].(content := TruncateChars(h[0].content, MAX_HISTORY_CHARS))] + h[1..])
  {
    hide Longest, Chars;
    DroppedIsLongest(all, h);
    assert [h[0]] + h[1..] == h;
  }

  /** What the model gets to see: settled messages with text, tool statuses only if they report an outcome of a run. */
  predicate Shown(m: ChatMessage) {
    && (exists c | c in m.text :: !IsWhitespace(c))
    && (|| (m.role.User? && m.status == Some(Completed))
        || (m.role.Assistant? && (m.status.None? || !m.status.value.Pending?))
        || (m.role.ToolStatus? && (m.status == Some(Failed) || (m.status == Some(Completed) && m.hasRun))))
  }

  /** How it sees them: words of user and assistant as they are, tool statuses in the assistant's name and marked. */
  predicate ShownAs(m: ChatMessage, turn: Turn) {
    && (turn.fromUser <==> m.role.User?)
    && (m.role.User? || m.role.Assistant? ==> turn.content == m.text)
    && (m.role.ToolStatus? && m.status == Some(Completed) ==> turn.content == "[tool success] " + Trim(m.text))
    && (m.role.ToolStatus? && m.status == Some(Failed) ==> turn.content == "[tool error] " + Trim(m.text))
  }

  lemma HistoryMessageMeans(m: ChatMessage)
    ensures HistoryMessage(m).Some? <==> Shown(m)
    ensures HistoryMessage(m).Some? ==> ShownAs(m, HistoryMessage(m).value)
  {
    TrimIsEmptyIff(m.text);
  }

  /** The turns are exactly the shown messages, in order; `at` are their positions. */
  ghost predicate ShownAt(transcript: seq<ChatMessage>, at: seq<nat>, turns: seq<Turn>) {
    && |at| == |turns| && (forall j, k | 0 <= j < k < |at| :: at[j] < at[k])
    && (forall k | 0 <= k < |at| :: at[k] < |transcript| && Shown(transcript[at[k]]) && ShownAs(transcript[at[k]], turns[k]))
    && (forall i | 0 <= i < |transcript| && Shown(transcript[i]) :: i in at)
  }

  lemma NothingShown(transcript: seq<ChatMessage>)
    ensures ShownAt(transcript[..0], [], [])
  {
  }

  lemma OneMoreShown(transcript: seq<ChatMessage>, at: seq<nat>, turns: seq<Turn>, i: nat)
    requires i < |transcript| && ShownAt(transcript[..i], at, turns)
    ensures var turn := HistoryMessage(transcript[i]);
            ShownAt(transcript[..i + 1], if turn.Some? then at + [i] else at, if turn.Some? then turns + [turn.value] else turns)
  {
    hide Shown, ShownAs, HistoryMessage;
    HistoryMessageMeans(transcript[i]);
    assert forall k | 0 <= k < i :: transcript[..i + 1][k] == transcript[..i][k];
    var at' := if HistoryMessage(transcript[i]).Some? then at + [i] else at;
    forall k | 0 <= k < i + 1 && Shown(transcript[..i + 1][k]) ensures k in at' {
      assert k < i ==> k in at;
      assert k == i ==> at'[|at|] == i;
    }
  }

  method CollectReplayable(transcript: seq<ChatMessage>) returns (turns: seq<Turn>, ghost at: seq<nat>)
    ensures turns == Replayable(transcript) && ShownAt(transcript, at, turns)
  {
    turns, at := [], [];
    NothingShown(transcript);
    hide ShownAt, HistoryMessage;
    for i := 0 to |transcript|
      invariant turns == Replayable(transcript[..i]) && ShownAt(transcript[..i], at, turns)
    {
      assert transcript[..i + 1][..i] == transcript[..i];
      OneMoreShown(transcript, at, turns, i);
      var turn := HistoryMessage(transcript[i]);
      if turn.Some? {
        turns, at := turns + [turn.value], at + [i];
      }
    }
    assert transcript[..|transcript|] == transcript;
  }

  method BuildHistory(transcript: seq<ChatMessage>) returns (history: seq<Turn>, ghost at: seq<nat>)
    ensures IsHistory(Replayable(transcript), history) && ShownAt(transcript, at, Replayable(transcript))
  {
    hide Replayable, IsHistory, Dropped, ShownAt;
    var all;
    all, at := CollectReplayable(transcript);
    history := Bounded(all);
    if all != [] {
      CutFirst(all, history);
      NotEmpty(all, history);
      history := [history[0].(content := TruncateChars(history[0].content, MAX_HISTORY_CHARS))] + history[1..];
    } else {
      NothingToReplay();
    }
  }

  lemma NotEmpty(all: seq<Turn>, h: seq<Turn>)
    requires Dropped(all, h)
    ensures h != []
  {
  }

  lemma NothingToReplay()
    ensures IsHistory([], [])
  {
  }

  /** Drop the oldest messages until both limits hold or only one message is left. */
  method Bounded(all: seq<Turn>) returns (history: seq<Turn>)
    ensures all == [] ==> history == []
    ensures all != [] ==> Dropped(all, history)
  {
    history := all;
    if |history| > MAX_HISTORY_MESSAGES {
      history := history[|history| - MAX_HISTORY_MESSAGES..];
    }
    var chars := CountChars(history);
    while |history| > 1 && chars > MAX_HISTORY_CHARS
      invariant |history| <= |all| && history == all[|all| - |history|..] && |history| <= MAX_HISTORY_MESSAGES
      invariant (all == [] <==> history == []) && chars == Chars(history)
      invariant |history| < |all| ==> !Fits(all[|all| - |history| - 1..])
    {
      assert all[|all| - |history|..] == history && !Fits(history);
      assert history[1..] == all[|all| - |history| + 1..];
      history := history[1..];
      chars := CountChars(history);
    }
  }
}
