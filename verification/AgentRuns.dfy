/** Theorems about whole runs of the agent loop. */
module AgentRuns {
  import opened Reordering
  import opened Sequences
  import opened Wrappers
  import opened AgentTypes
  import opened AgentTrace
  import opened ToolRuntime
  import opened ToolScheduler
  import opened AgentLoop
  import opened Mailboxes

  lemma {:induction false} Prefix(rt: Runtime, start: seq<Message>, first: seq<Message>, world: World, turns: seq<Turn>)
    requires WellRun(rt, start, first, world, turns) && turns != []
    ensures WellRun(rt, start, first, world, turns[..|turns| - 1])
    ensures WellTurned(rt, turns[|turns| - 1]) && Linked(start, first, world, turns, |turns| - 1)
  {
    var n := |turns| - 1;
    var init, t := turns[..n], turns[n];
    SplitLast(turns);
    assert Linked(start, first, world, turns, n);
    forall k | 0 <= k < n
      ensures WellTurned(rt, init[k]) && Linked(start, first, world, init, k)
    {
      assert Linked(start, first, world, turns, k) && WellTurned(rt, turns[k]);
      LinkedSnoc(start, first, world, init, t, k);
    }
  }

  // ---------------------------------------------------------------------
  // Context invariant
  // ---------------------------------------------------------------------

  /** Message `j` is the result of this call. */
  predicate AnsweredAt(messages: seq<Message>, j: nat, call: ToolCall) {
    && j < |messages| && messages[j].ToolResult?
    && messages[j].toolCallId == call.id && messages[j].toolName == call.name
  }

  /** Call `k` of the first message is answered in its place. */
  predicate AnswersCall(messages: seq<Message>, calls: seq<ToolCall>, k: nat) {
    k < |calls| && AnsweredAt(messages, k + 1, calls[k])
  }

  /**
   * Every assistant tool call is followed directly by exactly one result with
   * its id, in call order, and there is no other tool result.
   */
  predicate Paired(messages: seq<Message>)
    decreases |messages|
  {
    if messages == [] then true
    else
      var calls := CallsOf(messages[0]);
      && !messages[0].ToolResult?
      && |calls| < |messages|
      && (forall k | 0 <= k < |calls| :: AnswersCall(messages, calls, k))
      && Paired(messages[1 + |calls|..])
  }

  lemma {:induction false} AnswerAt(messages: seq<Message>, k: nat)
    requires messages != [] && Paired(messages) && k < |CallsOf(messages[0])|
    ensures AnsweredAt(messages, k + 1, CallsOf(messages[0])[k])
  {
    assert AnswersCall(messages, CallsOf(messages[0]), k);
  }

  /** What follows a message with its answers is paired, and no call is among the answers. */
  lemma {:induction false} PairedRest(messages: seq<Message>)
    requires messages != [] && Paired(messages)
    ensures var n := |CallsOf(messages[0])|;
            && n < |messages| && Paired(messages[1 + n..])
            && forall j | 0 < j <= n :: CallsOf(messages[j]) == []
  {
    forall j | 0 < j <= |CallsOf(messages[0])|
      ensures j < |messages| && CallsOf(messages[j]) == []
    {
      AnswerAt(messages, j - 1);
    }
  }

  /** In a paired context call `k` of message `i` is answered `k + 1` messages later. */
  lemma {:induction false} PairedMeans(messages: seq<Message>, i: nat, k: nat, call: ToolCall)
    requires Paired(messages) && i < |messages| && k < |CallsOf(messages[i])| && CallsOf(messages[i])[k] == call
    ensures AnsweredAt(messages, i + 1 + k, call)
    decreases |messages|
  {
    if i == 0 {
      AnswerAt(messages, k);
    } else {
      PairedRest(messages);
      var n := 1 + |CallsOf(messages[0])|;
      assert i >= n;
      var rest := messages[n..];
      assert rest[i - n] == messages[i];
      PairedMeans(rest, i - n, k, call);
      AnsweredLater(messages, n, i - n + 1 + k, i + 1 + k, call);
    }
  }

  lemma {:induction false} AnsweredLater(messages: seq<Message>, n: nat, j: nat, j': nat, call: ToolCall)
    requires n <= |messages| && AnsweredAt(messages[n..], j, call) && j' == n + j
    ensures AnsweredAt(messages, j', call)
  {
  }

  /** A first message with its answers, and the paired rest. */
  lemma {:induction false} FirstAnswered(messages: seq<Message>) returns (n: nat, rest: seq<Message>)
    requires messages != [] && Paired(messages)
    ensures n == 1 + |CallsOf(messages[0])| <= |messages| && !messages[0].ToolResult?
    ensures Paired(rest) && |rest| == |messages| - n && forall m: nat | m < |rest| :: rest[m] == messages[m + n]
  {
    n := 1 + |CallsOf(messages[0])|;
    rest := messages[n..];
  }

  /** Every tool result in a paired context answers a call of a message `m` before it. */
  lemma {:induction false} OnlyAnswers(messages: seq<Message>, j: nat) returns (m: Message, i: nat, k: nat)
    requires Paired(messages) && j < |messages| && messages[j].ToolResult?
    ensures i < j && messages[i] == m && k < |CallsOf(m)| && j == i + 1 + k
    decreases |messages|, 0
  {
    var n, rest := FirstAnswered(messages);
    if j < n {
      m, i, k := messages[0], 0, j - 1;
    } else {
      m, i, k := AnswersInRest(messages, rest, n, j);
    }
  }

  lemma {:induction false} AnswersInRest(messages: seq<Message>, rest: seq<Message>, n: nat, j: nat)
    returns (m: Message, i: nat, k: nat)
    requires Paired(rest) && 0 < n <= j < |messages| && |rest| == |messages| - n && messages[j].ToolResult?
    requires forall k: nat | k < |rest| :: rest[k] == messages[k + n]
    ensures i < j && messages[i] == m && k < |CallsOf(m)| && j == i + 1 + k
    decreases |rest|, 1
  {
    assert rest[j - n] == messages[j];
    m, i, k := OnlyAnswers(rest, j - n);
    assert rest[i] == messages[i + n];
    i := i + n;
  }

  /** A paired context stays paired exactly when what is appended is paired. */
  lemma {:induction false} PairedAppend(a: seq<Message>, b: seq<Message>)
    requires Paired(a)
    ensures Paired(a + b) <==> Paired(b)
    decreases |a|
  {
    if a == [] {
      assert a + b == b;
    } else {
      var n := |CallsOf(a[0])|;
      AnswersKept(a, b, CallsOf(a[0]));
      AppendKeeps(a, b, 1 + n);
      PairedAppend(a[1 + n..], b);
    }
  }

  lemma {:induction false} AppendKeeps<T>(a: seq<T>, b: seq<T>, n: nat)
    requires 0 < n <= |a|
    ensures (a + b)[0] == a[0] && (a + b)[n..] == a[n..] + b
  {
  }

  lemma {:induction false} AnswersKept(a: seq<Message>, b: seq<Message>, calls: seq<ToolCall>)
    requires |calls| < |a|
    ensures forall k: nat | k < |calls| :: AnswersCall(a + b, calls, k) <==> AnswersCall(a, calls, k)
  {
  }

  /** A response with its results is paired, unless it failed and asked for tools. */
  lemma {:induction false} ResponsePaired(rt: Runtime, t: Turn)
    requires WellTurned(rt, t)
    ensures Paired([t.stream.result] + t.execution.results) <==> !(t.Failed() && t.Calls() != [])
  {
    if !t.Failed() || t.Calls() == [] {
      assert Handled(rt.tools, t.Calls(), t.execution.results, t.execution.log, t.execution.batches) by {
        if t.Failed() {
          NothingToExecute(rt, t.before);
        }
      }
    }
    AnsweredIff(t.stream.result, t.execution.results);
  }

  /** A message and some results are paired exactly when they answer its calls. */
  lemma {:induction false} AnsweredIff(m: Message, results: seq<Message>)
    requires !m.ToolResult? && (|results| <= |CallsOf(m)|)
    ensures Paired([m] + results) <==>
            |results| == |CallsOf(m)| && forall k | 0 <= k < |results| :: Answers(results[k], CallsOf(m)[k])
  {
    var ms := [m] + results;
    forall k | 0 <= k < |results|
      ensures AnswersCall(ms, CallsOf(m), k) <==> Answers(results[k], CallsOf(m)[k])
    {
      assert ms[k + 1] == results[k];
    }
    if |results| == |CallsOf(m)| {
      assert ms[1 + |CallsOf(m)|..] == [];
    }
  }

  lemma {:induction false} BlockPaired(rt: Runtime, t: Turn)
    requires WellTurned(rt, t) && Paired(t.injected)
    ensures Paired(t.Block()) <==> !(t.Failed() && t.Calls() != [])
  {
    ResponsePaired(rt, t);
    PairedAppend(t.injected, [t.stream.result] + t.execution.results);
    Associate(t.injected, [t.stream.result], t.execution.results);
  }

  lemma {:induction false} ConversationPaired(
      rt: Runtime, start: seq<Message>, first: seq<Message>, world: World, turns: seq<Turn>)
    requires WellRun(rt, start, first, world, turns)
    requires forall k | 0 <= k < |turns| :: Paired(turns[k].injected)
    ensures Paired(Conversation(turns)) <==>
            !(turns != [] && turns[|turns| - 1].Failed() && turns[|turns| - 1].Calls() != [])
    decreases |turns|
  {
    if turns != [] {
      var init, t := turns[..|turns| - 1], turns[|turns| - 1];
      Prefix(rt, start, first, world, turns);
      assert forall k | 0 <= k < |init| :: init[k].injected == turns[k].injected;
      ConversationPaired(rt, start, first, world, init);
      assert init != [] ==> init[|init| - 1] == turns[|turns| - 2];
      BlockPaired(rt, t);
      PairedAppend(Conversation(init), t.Block());
    }
  }

  /** A run of one turn whose response failed and asked for a tool. */
  lemma {:induction false} FailedCallUnpaired(rt: Runtime, world: World, call: ToolCall)
    ensures var m := Assistant([Call(call)], Error, None);
            var t := Turn([], [], LlmStream([Final], m), NothingExecuted, [], None, world, world);
            WellRun(rt, [], [], world, [t]) && RunOver([t]) && !Paired(Conversation([t]))
  {
    var m := Assistant([Call(call)], Error, None);
    var t := Turn([], [], LlmStream([Final], m), NothingExecuted, [], None, world, world);
    assert m.content[1..] == [] && ToolCalls([]) == [] && [call] + [] == [call];
    assert t.Calls() == [call];
    FailedTurn(rt, t);
    assert [t][..0] == [] && Conversation([]) == [];
    assert Linked([], [], world, [t], 0);
    ConversationPaired(rt, [], [], world, [t]);
  }

  lemma {:induction false} FailedTurn(rt: Runtime, t: Turn)
    requires t.stream.events == [Final] && t.stream.result.Assistant? && t.stream.result.stopReason.Error?
    requires t.execution == NothingExecuted && t.polled == [] && t.followUp.None? && t.after == t.before
    ensures WellTurned(rt, t) && t.Failed()
  {
    assert t.stream.events[0].Final?;
    assert Before(t.stream.events) == [];
  }

  lemma {:induction false} LinkedTake(
      start: seq<Message>, first: seq<Message>, world: World, turns: seq<Turn>, n: nat, k: nat)
    requires k < n <= |turns|
    ensures Linked(start, first, world, turns[..n], k) <==> Linked(start, first, world, turns, k)
  {
    Take(turns, n, k);
  }

  lemma {:induction false} TakeRun(
      rt: Runtime, start: seq<Message>, first: seq<Message>, world: World, turns: seq<Turn>, n: nat)
    requires WellRun(rt, start, first, world, turns) && n <= |turns|
    ensures WellRun(rt, start, first, world, turns[..n])
  {
    forall k | 0 <= k < n
      ensures WellTurned(rt, turns[..n][k]) && Linked(start, first, world, turns[..n], k)
    {
      assert WellTurned(rt, turns[k]) && Linked(start, first, world, turns, k);
      LinkedTake(start, first, world, turns, n, k);
    }
  }

  lemma {:induction false} ContextAt(
      rt: Runtime, start: seq<Message>, first: seq<Message>, world: World, turns: seq<Turn>, n: nat)
    requires WellRun(rt, start, first, world, turns) && n < |turns| && Paired(start)
    requires forall k | 0 <= k < n :: Paired(turns[k].injected)
    ensures turns[n].context == start + Conversation(turns[..n]) + turns[n].injected
    ensures Paired(turns[n].context) <==> Paired(turns[n].injected)
  {
    TakeRun(rt, start, first, world, turns, n);
    assert Linked(start, first, world, turns, n);
    var before := turns[..n];
    assert forall k | 0 <= k < n :: before[k].injected == turns[k].injected;
    ConversationPaired(rt, start, first, world, before);
    PairedAppend(start, Conversation(before));
    PairedAppend(start + Conversation(before), turns[n].injected);
  }

  /**
   * At every call of the provider the context is the initial context followed by
   * everything appended since, and all these contexts are paired if and only if
   * every batch of queued messages that was injected is paired by itself.
   */
  lemma {:induction false} ContextInvariant(
      rt: Runtime, start: seq<Message>, first: seq<Message>, world: World, turns: seq<Turn>)
    requires WellRun(rt, start, first, world, turns) && Paired(start)
    ensures forall n | 0 <= n < |turns| ::
              turns[n].context == start + Conversation(turns[..n]) + turns[n].injected
    ensures (forall n | 0 <= n < |turns| :: Paired(turns[n].context)) <==>
            (forall n | 0 <= n < |turns| :: Paired(turns[n].injected))
  {
    forall n | 0 <= n < |turns|
      ensures turns[n].context == start + Conversation(turns[..n]) + turns[n].injected
    {
      assert Linked(start, first, world, turns, n);
    }
    if forall n | 0 <= n < |turns| :: Paired(turns[n].injected) {
      forall n | 0 <= n < |turns|
        ensures Paired(turns[n].context)
      {
        ContextAt(rt, start, first, world, turns, n);
      }
    } else {
      var m: nat :| m < |turns| && !Paired(turns[m].injected);
      var n := FirstUnpaired(turns, m);
      ContextAt(rt, start, first, world, turns, n);
    }
  }

  lemma {:induction false} FirstUnpaired(turns: seq<Turn>, m: nat) returns (n: nat)
    requires m < |turns| && !Paired(turns[m].injected)
    ensures n < |turns| && !Paired(turns[n].injected)
    ensures forall k | 0 <= k < n :: Paired(turns[k].injected)
    decreases m
  {
    if j: nat :| j < m && !Paired(turns[j].injected) {
      n := FirstUnpaired(turns, j);
    } else {
      n := m;
    }
  }

  // ---------------------------------------------------------------------
  // Turn bound
  // ---------------------------------------------------------------------

  function One(b: bool): nat {
    if b then 1 else 0
  }

  /** The responses that asked for tools and did not fail. */
  function ToolTurns(turns: seq<Turn>): nat {
    if turns == [] then 0
    else var t := turns[|turns| - 1];
      ToolTurns(turns[..|turns| - 1]) + One(!t.Failed() && t.Calls() != [])
  }

  /** The non-empty batches dequeued after the initial poll. */
  function Batches(turns: seq<Turn>): nat {
    if turns == [] then 0
    else var t := turns[|turns| - 1];
      Batches(turns[..|turns| - 1]) + One(t.polled != []) + One(t.FollowedUp() != [])
  }

  /** The positions of the turns that asked for tools and did not fail. */
  function AskingTurns(turns: seq<Turn>): (r: set<nat>)
    ensures forall k: nat :: k in r <==>
              k < |turns| && !FailedOrAborted(turns[k].stream.result) && CallsOf(turns[k].stream.result) != []
  {
    if turns == [] then {}
    else
      var n := |turns| - 1;
      var m := turns[n].stream.result;
      AskingTurns(turns[..n]) + if !FailedOrAborted(m) && CallsOf(m) != [] then {n} else {}
  }

  /** Those of the turns at whose end steering messages were dequeued. */
  function SteeredTurns(turns: seq<Turn>): (r: set<nat>)
    ensures forall k: nat :: k in r <==> k < |turns| && turns[k].polled != []
  {
    if turns == [] then {}
    else
      var n := |turns| - 1;
      SteeredTurns(turns[..n]) + if turns[n].polled != [] then {n} else {}
  }

  /** Those of the turns followed by follow-ups. */
  function FollowedTurns(turns: seq<Turn>): (r: set<nat>)
    ensures forall k: nat :: k in r <==> k < |turns| && turns[k].followUp.Some? && turns[k].followUp.value != []
  {
    if turns == [] then {}
    else
      var n := |turns| - 1;
      FollowedTurns(turns[..n]) + if turns[n].followUp.Some? && turns[n].followUp.value != [] then {n} else {}
  }

  lemma {:induction false} OneMore(a: set<nat>, x: nat, b: bool)
    requires x !in a
    ensures |a + if b then {x} else {}| == |a| + One(b)
  {
    assert a + {} == a;
  }

  lemma {:induction false} AskingGrows(turns: seq<Turn>)
    requires turns != []
    ensures var n := |turns| - 1;
            |AskingTurns(turns)| == |AskingTurns(turns[..n])| + One(!turns[n].Failed() && turns[n].Calls() != [])
  {
    var n := |turns| - 1;
    var m := turns[n].stream.result;
    OneMore(AskingTurns(turns[..n]), n, !FailedOrAborted(m) && CallsOf(m) != []);
    assert turns[n].Failed() <==> FailedOrAborted(m);
  }

  lemma {:induction false} BatchesGrow(turns: seq<Turn>)
    requires turns != []
    ensures var n := |turns| - 1;
            && |SteeredTurns(turns)| == |SteeredTurns(turns[..n])| + One(turns[n].polled != [])
            && |FollowedTurns(turns)| == |FollowedTurns(turns[..n])| + One(turns[n].FollowedUp() != [])
  {
    var n := |turns| - 1;
    var f := turns[n].followUp;
    OneMore(SteeredTurns(turns[..n]), n, turns[n].polled != []);
    OneMore(FollowedTurns(turns[..n]), n, f.Some? && f.value != []);
  }

  /** What the bound below counts: responses that asked for tools, and batches of either queue. */
  lemma {:induction false} CausesAre(turns: seq<Turn>)
    ensures ToolTurns(turns) == |AskingTurns(turns)|
    ensures Batches(turns) == |SteeredTurns(turns)| + |FollowedTurns(turns)|
  {
    if turns != [] {
      CausesAre(turns[..|turns| - 1]);
      AskingGrows(turns);
      BatchesGrow(turns);
    }
  }

  lemma {:induction false} CausesGrow(turns: seq<Turn>, t: Turn)
    requires !t.Failed() && (t.Calls() != [] || t.Next() != [])
    ensures ToolTurns(turns + [t]) + Batches(turns + [t]) >= 1 + ToolTurns(turns) + Batches(turns)
  {
    assert (turns + [t])[..|turns + [t]| - 1] == turns;
  }

  /** Each turn after the first is caused by tool calls or a batch of the turn before it. */
  lemma {:induction false} TurnsAreCaused(
      rt: Runtime, start: seq<Message>, first: seq<Message>, world: World, turns: seq<Turn>)
    requires WellRun(rt, start, first, world, turns) && turns != []
    ensures var init := turns[..|turns| - 1]; |turns| <= 1 + ToolTurns(init) + Batches(init)
    decreases |turns|
  {
    var n := |turns| - 1;
    if n > 0 {
      var init := turns[..n];
      Prefix(rt, start, first, world, turns);
      TurnsAreCaused(rt, start, first, world, init);
      SplitLast(init);
      CausesGrow(init[..n - 1], init[n - 1]);
    }
  }

  /**
   * A run takes at most one turn more than it has tool-using responses and
   * non-empty batches, and a run that has not ended has used up all but its
   * next cause; so with at most K such responses and Q such batches the loop
   * ends after at most 1 + K + Q turns.
   */
  lemma {:induction false} TurnBound(
      rt: Runtime, responses: nat, a: Snapshot, ended: bool, first: seq<Message>, turns: seq<Turn>,
      pending: seq<Message>, b: Snapshot)
    requires RunOutcome(rt, responses, a, ended, first, turns, pending, b)
    ensures |turns| <= 1 + ToolTurns(turns) + Batches(turns)
    ensures responses > ToolTurns(turns) + Batches(turns) ==> ended
  {
    if turns != [] {
      TurnsAreCaused(rt, a.messages, first, a.world, turns);
    }
  }

  /**
   * Follow-ups are dequeued only after a turn without tool calls at whose end the
   * steering queue was polled and found empty.
   */
  lemma {:induction false} FollowUpsWait(
      rt: Runtime, start: seq<Message>, first: seq<Message>, world: World, turns: seq<Turn>, n: nat)
    requires WellRun(rt, start, first, world, turns) && n < |turns| && turns[n].followUp.Some?
    ensures turns[n].Calls() == [] && turns[n].polled == [] && !turns[n].Failed()
    ensures turns[n].followUp == Some([]) ==> n == |turns| - 1
  {
    assert WellTurned(rt, turns[n]);
    if n + 1 < |turns| {
      assert Linked(start, first, world, turns, n + 1);
      assert turns[..n + 1][|turns[..n + 1]| - 1] == turns[n];
    }
  }

  // ---------------------------------------------------------------------
  // What the stop reasons decide
  // ---------------------------------------------------------------------

  /** The response failed or was aborted, by its stop reason. */
  predicate FailedOrAborted(m: Message) {
    m.Assistant? && (match m.stopReason
                     case Error => true
                     case Aborted => true
                     case Stop => false
                     case Length => false
                     case ToolUse => false)
  }

  /** A failed or aborted response is the last; none of its calls run and nothing is polled after it. */
  lemma {:induction false} FailureEndsRun(
      rt: Runtime, start: seq<Message>, first: seq<Message>, world: World, turns: seq<Turn>, k: nat)
    requires WellRun(rt, start, first, world, turns) && k < |turns| && FailedOrAborted(turns[k].stream.result)
    ensures k == |turns| - 1 && turns[k].execution == Execution([], [], [], 0, [])
    ensures turns[k].polled == [] && turns[k].followUp.None? && turns[k].after == turns[k].before
  {
    assert WellTurned(rt, turns[k]);
    assert k + 1 < |turns| ==> Linked(start, first, world, turns, k + 1);
    assert turns[k].Failed();
  }

  /** After any other response its calls are executed, and the run goes on only for calls or queued messages. */
  lemma {:induction false} OthersGoOn(
      rt: Runtime, start: seq<Message>, first: seq<Message>, world: World, turns: seq<Turn>, k: nat)
    requires WellRun(rt, start, first, world, turns) && k < |turns| && !FailedOrAborted(turns[k].stream.result)
    ensures Executed(rt, CallsOf(turns[k].stream.result), turns[k].execution, turns[k].before, turns[k].after)
    ensures turns[k].followUp.Some? ==> CallsOf(turns[k].stream.result) == [] && turns[k].polled == []
    ensures k + 1 < |turns| ==>
              && turns[k + 1].injected ==
                 turns[k].polled + (if turns[k].followUp.Some? then turns[k].followUp.value else [])
              && (CallsOf(turns[k].stream.result) != [] || turns[k + 1].injected != [])
  {
    assert WellTurned(rt, turns[k]);
    assert !turns[k].Failed();
    if k + 1 < |turns| {
      assert Linked(start, first, world, turns, k + 1);
      assert turns[..k + 1][|turns[..k + 1]| - 1] == turns[k];
    }
  }

  /**
   * A run has ended exactly if its last response failed or was aborted, or asked for no
   * tool and was followed by empty polls of both queues; otherwise the script ran out.
   */
  lemma {:induction false} RunEndsIff(
      rt: Runtime, responses: nat, a: Snapshot, ended: bool, first: seq<Message>, turns: seq<Turn>,
      pending: seq<Message>, b: Snapshot)
    requires RunOutcome(rt, responses, a, ended, first, turns, pending, b)
    ensures ended <==>
            && turns != []
            && var t := turns[|turns| - 1];
            || FailedOrAborted(t.stream.result)
            || (CallsOf(t.stream.result) == [] && t.polled == [] && t.followUp == Some([]))
    ensures !ended ==> |turns| == responses
  {
    if turns != [] {
      var t := turns[|turns| - 1];
      assert WellTurned(rt, t);
      assert t.Failed() <==> FailedOrAborted(t.stream.result);
    }
  }

  // ---------------------------------------------------------------------
  // Conservation
  // ---------------------------------------------------------------------

  function Injected(turns: seq<Turn>): seq<Message> {
    if turns == [] then [] else Injected(turns[..|turns| - 1]) + turns[|turns| - 1].injected
  }

  /** Everything dequeued after the initial poll, in the order of the polls. */
  function Dequeued(turns: seq<Turn>): seq<Message> {
    if turns == [] then [] else Dequeued(turns[..|turns| - 1]) + turns[|turns| - 1].Next()
  }

  function Responses(turns: seq<Turn>): seq<Message> {
    if turns == [] then [] else Responses(turns[..|turns| - 1]) + [turns[|turns| - 1].stream.result]
  }

  function ToolResults(turns: seq<Turn>): seq<Message> {
    if turns == [] then [] else ToolResults(turns[..|turns| - 1]) + turns[|turns| - 1].execution.results
  }

  /** What was dequeued is what was injected, in that order, followed by what still waits. */
  lemma {:induction false} DequeuedIsInjected(
      rt: Runtime, start: seq<Message>, first: seq<Message>, world: World, turns: seq<Turn>)
    requires WellRun(rt, start, first, world, turns)
    ensures Injected(turns) + Waiting(first, turns) == first + Dequeued(turns)
    decreases |turns|
  {
    if turns != [] {
      var n := |turns| - 1;
      Prefix(rt, start, first, world, turns);
      DequeuedIsInjected(rt, start, first, world, turns[..n]);
      Associate(first, Dequeued(turns[..n]), turns[n].Next());
    }
  }

  lemma {:induction false} DequeuedByQueue(turns: seq<Turn>)
    ensures multiset(Dequeued(turns)) == multiset(Polled(turns)) + multiset(FollowUpsOf(turns))
  {
    if turns != [] {
      DequeuedByQueue(turns[..|turns| - 1]);
    }
  }

  /** The conversation is made of the injected messages, the responses and the tool results. */
  lemma {:induction false} ConversationParts(turns: seq<Turn>)
    ensures multiset(Conversation(turns)) ==
            multiset(Injected(turns)) + multiset(Responses(turns)) + multiset(ToolResults(turns))
  {
    if turns != [] {
      ConversationParts(turns[..|turns| - 1]);
    }
  }

  /**
   * Over any run, whatever arrives and however the modes switch: what waited in each
   * queue at the start followed by what arrived is what the run dequeued followed by
   * what waits at the end.
   */
  lemma {:induction false} QueuesConserved(
      rt: Runtime, responses: nat, arrivals: nat -> seq<QueueOp>, a: Snapshot, ended: bool, first: seq<Message>,
      turns: seq<Turn>, pending: seq<Message>, b: Snapshot, before: Queues, after: Queues)
    requires RunOutcome(rt, responses, a, ended, first, turns, pending, b) && Since(arrivals, a.past, b.past)
    requires Holding(a, before) && Holding(b, after)
    ensures before.steering + SteeredBy(arrivals, a.past.polls, b.past.polls) ==
            first + Polled(turns) + after.steering
    ensures before.followUp + FollowedBy(arrivals, a.past.polls, b.past.polls) ==
            FollowUpsOf(turns) + after.followUp
  {
    TakenBy(rt, responses, a, ended, first, turns, pending, b);
    QueueConserved(a.past.steered, a.steeringTaken, before.steering, SteeredBy(arrivals, a.past.polls, b.past.polls),
                   first + Polled(turns), b.past.steered, b.steeringTaken, after.steering);
    QueueConserved(a.past.followed, a.followUpTaken, before.followUp, FollowedBy(arrivals, a.past.polls, b.past.polls),
                   FollowUpsOf(turns), b.past.followed, b.followUpTaken, after.followUp);
  }

  /** What a run dequeued, by queue. */
  lemma {:induction false} TakenBy(
      rt: Runtime, responses: nat, a: Snapshot, ended: bool, first: seq<Message>, turns: seq<Turn>,
      pending: seq<Message>, b: Snapshot)
    requires RunOutcome(rt, responses, a, ended, first, turns, pending, b)
    ensures b.steeringTaken == a.steeringTaken + (first + Polled(turns))
    ensures b.followUpTaken == a.followUpTaken + FollowUpsOf(turns)
  {
    Associate(a.steeringTaken, first, Polled(turns));
  }

  lemma {:induction false} QueueConserved(
      queued: seq<Message>, taken: seq<Message>, waiting: seq<Message>, arrived: seq<Message>, more: seq<Message>,
      queued': seq<Message>, taken': seq<Message>, waiting': seq<Message>)
    requires queued == taken + waiting && queued' == taken' + waiting'
    requires queued' == queued + arrived && taken' == taken + more
    ensures waiting + arrived == more + waiting'
  {
    Cancel(taken, waiting, arrived, more, waiting');
  }

  predicate Holding(s: Snapshot, q: Queues) {
    s.past.steered == s.steeringTaken + q.steering && s.past.followed == s.followUpTaken + q.followUp
  }

  lemma {:induction false} Cancel(
      taken: seq<Message>, before: seq<Message>, arrived: seq<Message>, more: seq<Message>, after: seq<Message>)
    requires taken + before + arrived == taken + more + after
    ensures before + arrived == more + after
  {
    assert taken + before + arrived == taken + (before + arrived);
    assert taken + more + after == taken + (more + after);
    assert (taken + (before + arrived))[|taken|..] == before + arrived;
    assert (taken + (more + after))[|taken|..] == more + after;
  }

  /**
   * Over any run, what was dequeued is what was injected, in that order, followed by the
   * batch that still waits; and when the run has ended, on an error response or not,
   * every message dequeued by it is in the conversation exactly once.
   */
  lemma {:induction false} Conservation(
      rt: Runtime, responses: nat, a: Snapshot, ended: bool, first: seq<Message>, turns: seq<Turn>,
      pending: seq<Message>, b: Snapshot)
    requires RunOutcome(rt, responses, a, ended, first, turns, pending, b)
    ensures Injected(turns) + pending == first + Dequeued(turns)
    ensures ended ==>
              multiset(b.newMessages) ==
              multiset(a.newMessages) + multiset(first) + multiset(Polled(turns)) + multiset(FollowUpsOf(turns))
              + multiset(Responses(turns)) + multiset(ToolResults(turns))
  {
    OutcomeWaits(rt, responses, a, ended, first, turns, pending, b);
    DequeuedIsInjected(rt, a.messages, first, a.world, turns);
    if ended {
      assert Injected(turns) + [] == Injected(turns);
      ConversationSum(first, turns);
    }
  }

  /** What a run leaves pending is the batch of its last turn. */
  lemma {:induction false} OutcomeWaits(
      rt: Runtime, responses: nat, a: Snapshot, ended: bool, first: seq<Message>, turns: seq<Turn>,
      pending: seq<Message>, b: Snapshot)
    requires RunOutcome(rt, responses, a, ended, first, turns, pending, b)
    ensures WellRun(rt, a.messages, first, a.world, turns) && pending == Waiting(first, turns)
    ensures multiset(b.newMessages) == multiset(a.newMessages) + multiset(Conversation(turns))
    ensures ended ==> pending == []
  {
    if ended {
      LastIn(rt, a.messages, first, a.world, turns);
      assert Waiting(first, turns) == [];
    }
  }

  lemma {:induction false} ConversationSum(first: seq<Message>, turns: seq<Turn>)
    requires Injected(turns) == first + Dequeued(turns)
    ensures multiset(Conversation(turns)) ==
            multiset(first) + multiset(Polled(turns)) + multiset(FollowUpsOf(turns))
            + multiset(Responses(turns)) + multiset(ToolResults(turns))
  {
    DequeuedByQueue(turns);
    ConversationParts(turns);
  }

  // ---------------------------------------------------------------------
  // Event trace
  // ---------------------------------------------------------------------

  /** The events of the tool calls close what they open and end no turn. */
  lemma {:induction false} ExecutionInside(rt: Runtime, t: Turn)
    requires WellTurned(rt, t)
    ensures AcceptAll(rt.tools, InTurn, t.execution.log) == Some(InTurn) && TurnsEnded(t.execution.log) == []
  {
  }

  lemma {:induction false} TurnEndAccepted(tools: seq<Tool>, log: seq<AgentEvent>, m: Message, results: seq<Message>)
    requires AcceptAll(tools, InTurn, log) == Some(InTurn)
    ensures AcceptAll(tools, InTurn, log + [TurnEnd(m, results)]) == Some(Between)
  {
    AcceptAppend(tools, InTurn, log, [TurnEnd(m, results)]);
    assert [TurnEnd(m, results)][1..] == [];
  }

  lemma {:induction false} TurnLogAccepted(rt: Runtime, t: Turn)
    requires WellTurned(rt, t)
    ensures AcceptAll(rt.tools, InTurn, t.Log()) == Some(Between)
  {
    var tools := rt.tools;
    var m, s, x := MessageEvents(t.injected), StreamLog(t.stream.events, t.stream.result, false), t.execution.log;
    MessageEventsAccepted(tools, InTurn, t.injected);
    var k :| 0 <= k < |t.stream.events| && t.stream.events[k].Final?;
    StreamLogAccepted(tools, t.stream.events, t.stream.result, false, k);
    ExecutionInside(rt, t);
    BracketsAppend(tools, m, s);
    BracketsAppend(tools, m + s, x);
    TurnEndAccepted(tools, m + s + x, t.stream.result, t.execution.results);
  }

  lemma {:induction false} NextAccepted(tools: seq<Tool>, log: seq<AgentEvent>, open: bool, more: seq<AgentEvent>)
    requires AcceptAll(tools, InTurn, log) == Some(if open then Between else InTurn)
    requires AcceptAll(tools, InTurn, more) == Some(Between)
    ensures AcceptAll(tools, InTurn, log + (if open then [TurnStart] else []) + more) == Some(Between)
  {
    var start := if open then [TurnStart] else [];
    assert [TurnStart][1..] == [];
    AcceptAppend(tools, InTurn, log, start);
    AcceptAppend(tools, InTurn, log + start, more);
  }

  lemma {:induction false} LoopLogAccepted(
      rt: Runtime, start: seq<Message>, first: seq<Message>, world: World, turns: seq<Turn>)
    requires WellRun(rt, start, first, world, turns)
    ensures AcceptAll(rt.tools, InTurn, LoopLog(turns)) == Some(if turns == [] then InTurn else Between)
    decreases |turns|
  {
    if turns != [] {
      var n := |turns| - 1;
      Prefix(rt, start, first, world, turns);
      LoopLogAccepted(rt, start, first, world, turns[..n]);
      TurnLogAccepted(rt, turns[n]);
      NextAccepted(rt.tools, LoopLog(turns[..n]), n > 0, turns[n].Log());
    }
  }

  /** The whole event stream of a run: what `agentLoop` pushes first, the turns, and the end. */
  function RunLog(prompts: seq<Message>, turns: seq<Turn>): seq<AgentEvent> {
    [AgentStart, TurnStart] + MessageEvents(prompts) + LoopLog(turns)
  }

  /**
   * The event stream of every run is well bracketed at every moment, and complete
   * once the run has ended; no side-effecting tool ever overlaps another tool.
   */
  lemma {:induction false} TraceWellBracketed(
      rt: Runtime, start: seq<Message>, first: seq<Message>, world: World, prompts: seq<Message>, turns: seq<Turn>,
      newMessages: seq<Message>)
    requires WellRun(rt, start, first, world, turns)
    ensures AcceptAll(rt.tools, Fresh, RunLog(prompts, turns)) == Some(if turns == [] then InTurn else Between)
    ensures turns != [] ==>
              AcceptAll(rt.tools, Fresh, RunLog(prompts, turns) + [AgentEnd(newMessages)]) == Some(Closed)
  {
    var head := [AgentStart, TurnStart];
    assert head[1..] == [TurnStart] && [TurnStart][1..] == [];
    assert AcceptAll(rt.tools, Between, [TurnStart]) == Some(InTurn);
    assert AcceptAll(rt.tools, Fresh, head) == Some(InTurn);
    MessageEventsAccepted(rt.tools, InTurn, prompts);
    LoopLogAccepted(rt, start, first, world, turns);
    AcceptAppend(rt.tools, Fresh, head, MessageEvents(prompts));
    AcceptAppend(rt.tools, Fresh, head + MessageEvents(prompts), LoopLog(turns));
    AcceptAppend(rt.tools, Fresh, RunLog(prompts, turns), [AgentEnd(newMessages)]);
    assert [AgentEnd(newMessages)][1..] == [];
  }

  /** In the trace of a run a call ends before the next starts, unless both tools are declared read-only. */
  lemma {:induction false} SideEffectsAlone(
      rt: Runtime, start: seq<Message>, first: seq<Message>, world: World, prompts: seq<Message>, turns: seq<Turn>,
      i: nat, j: nat)
    requires WellRun(rt, start, first, world, turns)
    requires var log := RunLog(prompts, turns);
             && i < j < |log| && log[i].ToolStart? && log[j].ToolStart?
             && !(DeclaredReadOnly(rt.tools, log[i].call.name) && DeclaredReadOnly(rt.tools, log[j].call.name))
    ensures var log := RunLog(prompts, turns);
            exists m | i < m < j :: Ends(log[m], log[i].call.id)
  {
    TraceWellBracketed(rt, start, first, world, prompts, turns, []);
    NoOverlap(rt.tools, Fresh, RunLog(prompts, turns), i, j);
  }

  /** No batch of tool calls ran in a pool. */
  predicate NoPools(turns: seq<Turn>) {
    forall k | 0 <= k < |turns| :: AllOnes(turns[k].execution.batches)
  }

  /** No group of the turn's calls ran in a pool. */
  predicate TurnWithoutPool(rt: Runtime, t: Turn) {
    NoPoolRan(Groups(rt.tools, t.Calls()), rt.maxParallelTools, t.execution.executed)
  }

  lemma {:induction false} TurnPoolsIff(rt: Runtime, t: Turn)
    requires WellTurned(rt, t)
    ensures AllOnes(t.execution.batches) <==> TurnWithoutPool(rt, t)
  {
    var groups, x := Groups(rt.tools, t.Calls()), t.execution;
    NoPoolsRanIff(groups, rt.maxParallelTools, x.executed);
    if t.Failed() {
      NothingRan(rt.tools, t.Calls(), rt.maxParallelTools);
    } else {
      InBatchesIff(rt, t.Calls(), x.executed, x.batches);
      OnesAppend(BatchSizes(groups, rt.maxParallelTools, x.executed), Ones(|t.Calls()| - x.executed));
    }
  }

  lemma {:induction false} NothingRan(tools: seq<Tool>, calls: seq<ToolCall>, maxParallelTools: Option<int>)
    ensures AllOnes(BatchSizes(Groups(tools, calls), maxParallelTools, 0))
  {
    GroupsAreGrouping(tools, calls);
    GroupingNonempty(tools, calls, Groups(tools, calls));
    NoBatches(Groups(tools, calls), maxParallelTools);
  }

  /** No pool is recorded if and only if none ran; what ran in pools follows from the calls and the limit. */
  lemma {:induction false} NoPoolsIff(
      rt: Runtime, start: seq<Message>, first: seq<Message>, world: World, turns: seq<Turn>)
    requires WellRun(rt, start, first, world, turns)
    ensures NoPools(turns) <==> forall k | 0 <= k < |turns| :: TurnWithoutPool(rt, turns[k])
  {
    forall k | 0 <= k < |turns|
      ensures AllOnes(turns[k].execution.batches) <==> TurnWithoutPool(rt, turns[k])
    {
      assert WellTurned(rt, turns[k]);
      TurnPoolsIff(rt, turns[k]);
    }
  }

  /** With a limit of one the messages end exactly in the order of the conversation. */
  lemma {:induction false} SequentialInOrder(
      rt: Runtime, start: seq<Message>, first: seq<Message>, world: World, turns: seq<Turn>)
    requires WellRun(rt, start, first, world, turns)
    requires rt.maxParallelTools.Some? && rt.maxParallelTools.value <= 1
    ensures Ended(LoopLog(turns)) == Conversation(turns)
  {
    NoPoolsIff(rt, start, first, world, turns);
    LoopLogEnded(rt, start, first, world, turns);
  }

  /** The sizes of the pools, and 1 for everything else in the conversation. */
  function Segments(turns: seq<Turn>): seq<nat> {
    if turns == [] then []
    else
      var t := turns[|turns| - 1];
      Segments(turns[..|turns| - 1]) + (Ones(|t.injected| + 1) + t.execution.batches)
  }

  /** The conversation as the events show it: tool results in the order their messages end. */
  function Shown(turns: seq<Turn>): seq<Message> {
    if turns == [] then []
    else var t := turns[|turns| - 1];
      Shown(turns[..|turns| - 1]) + (t.injected + [t.stream.result] + Ended(t.execution.log))
  }

  lemma {:induction false} TurnLogEnded(rt: Runtime, t: Turn)
    requires WellTurned(rt, t)
    ensures Ended(t.Log()) == t.injected + [t.stream.result] + Ended(t.execution.log)
    ensures Permuted(Ended(t.execution.log), t.execution.results, t.execution.batches)
    ensures PooledReadOnly(rt.tools, if t.Failed() then [] else t.Calls(), t.execution.batches)
  {
    var m, s, x := MessageEvents(t.injected), StreamLog(t.stream.events, t.stream.result, false), t.execution.log;
    var end := [TurnEnd(t.stream.result, t.execution.results)];
    EndedMessageEvents(t.injected);
    var k :| 0 <= k < |t.stream.events| && t.stream.events[k].Final?;
    StreamLogAccepted(rt.tools, t.stream.events, t.stream.result, false, k);
    EndedAppend(m, s);
    EndedAppend(m + s, x);
    EndedAppend(m + s + x, end);
    assert end[1..] == [];
  }

  lemma {:induction false} EndedTurn(log: seq<AgentEvent>, open: bool, t: Turn)
    ensures Ended(log + (if open then [TurnStart] else []) + t.Log()) == Ended(log) + Ended(t.Log())
  {
    var start := if open then [TurnStart] else [];
    StartEndsNothing(open);
    EndedApart(log, start, t.Log());
  }

  lemma {:induction false} StartEndsNothing(open: bool)
    ensures Ended(if open then [TurnStart] else []) == []
  {
    assert [TurnStart][1..] == [];
  }

  lemma {:induction false} EndedApart(log: seq<AgentEvent>, start: seq<AgentEvent>, more: seq<AgentEvent>)
    requires Ended(start) == []
    ensures Ended(log + start + more) == Ended(log) + Ended(more)
  {
    EndedAppend(log, start);
    EndedAppend(log + start, more);
  }

  lemma {:induction false} TurnShown(rt: Runtime, t: Turn)
    requires WellTurned(rt, t)
    ensures Ended(t.Log()) == t.injected + [t.stream.result] + Ended(t.execution.log)
    ensures Permuted(Ended(t.Log()), t.Block(), Ones(|t.injected| + 1) + t.execution.batches)
  {
    var head := t.injected + [t.stream.result];
    TurnLogEnded(rt, t);
    PermutedSame(head);
    PermutedAppend(head, head, Ones(|head|), Ended(t.execution.log), t.execution.results, t.execution.batches);
  }

  lemma {:induction false} LoopShown(
      rt: Runtime, start: seq<Message>, first: seq<Message>, world: World, turns: seq<Turn>)
    requires WellRun(rt, start, first, world, turns)
    ensures Ended(LoopLog(turns)) == Shown(turns)
    decreases |turns|
  {
    if turns != [] {
      var n := |turns| - 1;
      Prefix(rt, start, first, world, turns);
      LoopShown(rt, start, first, world, turns[..n]);
      TurnShown(rt, turns[n]);
      EndedTurn(LoopLog(turns[..n]), n > 0, turns[n]);
    }
  }

  lemma {:induction false} LoopPermuted(
      rt: Runtime, start: seq<Message>, first: seq<Message>, world: World, turns: seq<Turn>)
    requires WellRun(rt, start, first, world, turns)
    ensures Permuted(Shown(turns), Conversation(turns), Segments(turns))
    decreases |turns|
  {
    if turns != [] {
      var init, t := turns[..|turns| - 1], turns[|turns| - 1];
      Prefix(rt, start, first, world, turns);
      LoopPermuted(rt, start, first, world, init);
      TurnShown(rt, t);
      PermutedAppend(Shown(init), Conversation(init), Segments(init),
                     Ended(t.Log()), t.Block(), Ones(|t.injected| + 1) + t.execution.batches);
      ShownSnoc(turns);
    }
  }

  lemma {:induction false} ShownSnoc(turns: seq<Turn>)
    requires turns != []
    ensures var init, t := turns[..|turns| - 1], turns[|turns| - 1];
            && Shown(turns) == Shown(init) + (t.injected + [t.stream.result] + Ended(t.execution.log))
            && Conversation(turns) == Conversation(init) + t.Block()
            && Segments(turns) == Segments(init) + (Ones(|t.injected| + 1) + t.execution.batches)
  {
  }

  lemma {:induction false} SegmentsAlone(turns: seq<Turn>)
    requires NoPools(turns)
    ensures AllOnes(Segments(turns))
  {
    if turns != [] {
      var init, t := turns[..|turns| - 1], turns[|turns| - 1];
      SegmentsAlone(init);
      assert AllOnes(t.execution.batches);
    }
  }

  /**
   * The messages that end are the conversation, with the results of each pool permuted
   * among themselves and everything else in place; only read-only calls share a pool.
   */
  lemma {:induction false} LoopLogEnded(
      rt: Runtime, start: seq<Message>, first: seq<Message>, world: World, turns: seq<Turn>)
    requires WellRun(rt, start, first, world, turns)
    ensures Ended(LoopLog(turns)) == Shown(turns)
    ensures Permuted(Shown(turns), Conversation(turns), Segments(turns))
    ensures NoPools(turns) ==> Shown(turns) == Conversation(turns)
  {
    LoopShown(rt, start, first, world, turns);
    LoopPermuted(rt, start, first, world, turns);
    if NoPools(turns) {
      SegmentsAlone(turns);
      PermutedOnes(Shown(turns), Conversation(turns), Segments(turns));
    }
  }

  // ---------------------------------------------------------------------
  // Turn ends
  // ---------------------------------------------------------------------

  /** Inside a turn only its last event ends a turn. */
  lemma {:induction false} TurnEndsOnce(rt: Runtime, t: Turn)
    requires WellTurned(rt, t)
    ensures TurnsEnded(t.Log()) == [t.stream.result]
  {
    var m, s, x := MessageEvents(t.injected), StreamLog(t.stream.events, t.stream.result, false), t.execution.log;
    var end := [TurnEnd(t.stream.result, t.execution.results)];
    EndedMessageEvents(t.injected);
    var k :| 0 <= k < |t.stream.events| && t.stream.events[k].Final?;
    StreamLogAccepted(rt.tools, t.stream.events, t.stream.result, false, k);
    ExecutionInside(rt, t);
    TurnsEndedAppend(m, s);
    TurnsEndedAppend(m + s, x);
    TurnsEndedAppend(m + s + x, end);
    assert end[1..] == [];
  }

  lemma {:induction false} OneMoreEnds(log: seq<AgentEvent>, open: bool, more: seq<AgentEvent>)
    ensures TurnsEnded(log + (if open then [TurnStart] else []) + more) == TurnsEnded(log) + TurnsEnded(more)
  {
    var start := if open then [TurnStart] else [];
    assert [TurnStart][1..] == [];
    TurnsEndedAppend(log, start);
    TurnsEndedAppend(log + start, more);
  }

  /** The turns that end are those of the run, each with its response, in order. */
  lemma {:induction false} TurnsEndWithResponses(
      rt: Runtime, start: seq<Message>, first: seq<Message>, world: World, turns: seq<Turn>)
    requires WellRun(rt, start, first, world, turns)
    ensures TurnsEnded(LoopLog(turns)) == Responses(turns)
    decreases |turns|
  {
    if turns != [] {
      var init, t := turns[..|turns| - 1], turns[|turns| - 1];
      Prefix(rt, start, first, world, turns);
      TurnsEndWithResponses(rt, start, first, world, init);
      TurnEndsOnce(rt, t);
      OneMoreEnds(LoopLog(init), |turns| > 1, t.Log());
    }
  }
}
