/** One conversation turn and the conversation loop, without the console and
    the model. The model's reply is not a function of its prompt (it samples),
    so each turn's reply is an input; the loop runs over the lines the user
    typed before quitting. */
module Loop {
  import opened Words
  import opened Policy
  import opened History
  import opened Context

  const UserRole := "User"
  const AssistantRole := "Genius"

  /** The context text handed to the model, for the history as it is after
      the user's turn was recorded and the current window length. An empty
      table gives no text; a window at least as long as the query's answer
      shows all of it. */
  function ContextFor(history: seq<Turn>, n: int): (context: string)
    ensures history == [] ==> context == ""
    ensures Min(RecentLimit, |history|) <= n ==> context == FormatContext(Recent(history))
  {
    FormatContext(Window(Recent(history), n))
  }

  /** One pass of the loop body: adjust the window, record the input, read
      the recent turns, cut the window, format; `reply` is what the model
      answered to that context, and it is recorded last. */
  method UserTurn(config: ChatbotConfig, store: ConversationStore, userInput: string, reply: string)
    returns (context: string)
    requires store.Valid()
    modifies config`currentContextLength, store
    ensures store.Valid()
    ensures config.State() == Adjusted(old(config.State()), userInput)
    ensures context == ContextFor(old(store.history) + [Turn(UserRole, userInput)], config.currentContextLength)
    ensures store.history == old(store.history) + [Turn(UserRole, userInput), Turn(AssistantRole, reply)]
  {
    config.AdjustContextBasedOnComplexity(userInput);
    store.AddMessage(UserRole, userInput);
    var recent := store.GetRecentMessages();
    var recentMessages := Window(recent, config.currentContextLength);
    context := FormatContext(recentMessages);
    store.AddMessage(AssistantRole, reply);
  }

  /** What the table holds and what context was built, after some turns. */
  datatype Outcome = Outcome(history: seq<Turn>, contexts: seq<string>)

  /** The context of a turn under the default window of 5: the input is
      recorded first, and its word count selects the window. On an empty
      table it is the input's own line. */
  function TurnContext(history: seq<Turn>, userInput: string): (context: string)
    ensures history == [] ==> context == Render(Turn(UserRole, userInput))
  {
    var h := history + [Turn(UserRole, userInput)];
    assert history == [] ==> Recent(h) == h;
    ContextFor(h, WindowFor(WordCount(userInput), DefaultWindow))
  }

  /** One turn: build the context with `contextOf` from the rows recorded so
      far and the input, then record the input and the reply. */
  function Step(o: Outcome, userInput: string, reply: string, contextOf: (seq<Turn>, string) -> string): (r: Outcome)
    ensures r.history == o.history + [Turn(UserRole, userInput), Turn(AssistantRole, reply)]
    ensures r.contexts == o.contexts + [contextOf(o.history, userInput)]
  {
    Outcome(o.history + [Turn(UserRole, userInput), Turn(AssistantRole, reply)],
            o.contexts + [contextOf(o.history, userInput)])
  }

  /** The loop over `inputs` and the model's `replies`, one Step per line,
      starting from the stored rows: one context per input, two rows per
      turn, the stored rows untouched. */
  function Run(stored: seq<Turn>, inputs: seq<string>, replies: seq<string>,
               contextOf: (seq<Turn>, string) -> string): (o: Outcome)
    requires |replies| == |inputs|
    ensures |o.contexts| == |inputs|
    ensures |o.history| == |stored| + 2 * |inputs|
    ensures o.history[..|stored|] == stored
  {
    if inputs == [] then Outcome(stored, [])
    else
      var n := |inputs|;
      var prev := Run(stored, inputs[..n - 1], replies[..n - 1], contextOf);
      var o := Step(prev, inputs[n - 1], replies[n - 1], contextOf);
      assert o.history[..|stored|] == prev.history[..|stored|];
      o
  }

  /** A run over one more input is the run so far followed by one Step. */
  lemma RunExtend(stored: seq<Turn>, inputs: seq<string>, replies: seq<string>,
                  contextOf: (seq<Turn>, string) -> string, k: nat)
    requires |replies| == |inputs| && k < |inputs|
    ensures Run(stored, inputs[..k + 1], replies[..k + 1], contextOf)
            == Step(Run(stored, inputs[..k], replies[..k], contextOf), inputs[k], replies[k], contextOf)
  {
    assert inputs[..k + 1][..k] == inputs[..k] && replies[..k + 1][..k] == replies[..k];
  }

  /** A run records, after the stored rows, each input followed by its
      reply, in order. */
  lemma {:induction false} RunRecordsTurns(stored: seq<Turn>, inputs: seq<string>, replies: seq<string>,
                                           contextOf: (seq<Turn>, string) -> string)
    requires |replies| == |inputs|
    ensures var o := Run(stored, inputs, replies, contextOf);
            forall i :: 0 <= i < |inputs| ==>
              && o.history[|stored| + 2 * i] == Turn(UserRole, inputs[i])
              && o.history[|stored| + 2 * i + 1] == Turn(AssistantRole, replies[i])
  {
    if inputs != [] {
      var n := |inputs|;
      var prev := Run(stored, inputs[..n - 1], replies[..n - 1], contextOf);
      var o := Run(stored, inputs, replies, contextOf);
      RunRecordsTurns(stored, inputs[..n - 1], replies[..n - 1], contextOf);
      assert o.history == prev.history + [Turn(UserRole, inputs[n - 1]), Turn(AssistantRole, replies[n - 1])];
      forall i | 0 <= i < n
        ensures o.history[|stored| + 2 * i] == Turn(UserRole, inputs[i])
        ensures o.history[|stored| + 2 * i + 1] == Turn(AssistantRole, replies[i])
      {
        if i < n - 1 {
          assert inputs[..n - 1][i] == inputs[i] && replies[..n - 1][i] == replies[i];
        }
      }
    }
  }

  /** The i-th context is built from the rows recorded before the i-th input. */
  lemma {:induction false} RunContextAt(stored: seq<Turn>, inputs: seq<string>, replies: seq<string>,
                                        contextOf: (seq<Turn>, string) -> string, i: nat)
    requires |replies| == |inputs| && i < |inputs|
    ensures |Run(stored, inputs, replies, contextOf).contexts| == |inputs|
    ensures Run(stored, inputs, replies, contextOf).contexts[i]
            == contextOf(Run(stored, inputs[..i], replies[..i], contextOf).history, inputs[i])
  {
    var n := |inputs|;
    var prev := Run(stored, inputs[..n - 1], replies[..n - 1], contextOf);
    assert Run(stored, inputs, replies, contextOf).contexts == prev.contexts + [contextOf(prev.history, inputs[n - 1])];
    if i < n - 1 {
      RunContextAt(stored, inputs[..n - 1], replies[..n - 1], contextOf, i);
      assert inputs[..n - 1][..i] == inputs[..i] && replies[..n - 1][..i] == replies[..i];
    } else {
      assert inputs[..i] == inputs[..n - 1] && replies[..i] == replies[..n - 1];
    }
  }

  /** The conversation loop over `inputs`, starting from the rows already in
      the table and a config with the default window of 5; `replies[k]` is
      the model's answer on turn k. */
  method Converse(stored: seq<Turn>, inputs: seq<string>, replies: seq<string>)
    returns (store: ConversationStore, contexts: seq<string>)
    requires |replies| == |inputs|
    ensures store.Valid()
    ensures Outcome(store.history, contexts) == Run(stored, inputs, replies, TurnContext)
  {
    store := new ConversationStore(stored);
    var config := new ChatbotConfig(DefaultWindow);
    contexts := [];
    for k := 0 to |inputs|
      invariant store.Valid()
      invariant config.defaultContextLength == DefaultWindow
      invariant Outcome(store.history, contexts) == Run(stored, inputs[..k], replies[..k], TurnContext)
    {
      ghost var before := Outcome(store.history, contexts);
      var context := UserTurn(config, store, inputs[k], replies[k]);
      assert context == TurnContext(before.history, inputs[k]);
      RunExtend(stored, inputs, replies, TurnContext, k);
      contexts := contexts + [context];
    }
    assert inputs[..|inputs|] == inputs && replies[..|replies|] == replies;
  }

  /** On an empty table with the default config, the first context is the
      user's own line and nothing else. */
  lemma FirstTurnContext(userInput: string)
    ensures ContextFor([Turn(UserRole, userInput)], Adjusted(Initial(DefaultWindow), userInput).currentLength)
            == "User: " + userInput
  {
    var h := [Turn(UserRole, userInput)];
    assert Recent(h) == h;
  }

  /** While the table holds no more turns than the window, the context shows
      every recent turn, and its first line is the input just recorded. */
  lemma ContextStartsWithInput(history: seq<Turn>, userInput: string, n: int)
    requires Min(RecentLimit, |history| + 1) <= n
    ensures var context := ContextFor(history + [Turn(UserRole, userInput)], n);
            var line := Render(Turn(UserRole, userInput));
            |line| <= |context| && context[..|line|] == line
  {
    var h' := history + [Turn(UserRole, userInput)];
    WindowKeepsAll(h', n);
    RecentAfterAppend(history, Turn(UserRole, userInput));
    JoinLinesStartsWithFirst(RenderAll(Recent(h')));
  }

  /** Once the table holds more recent turns than the window, the context is
      the oldest n turns of the 100 the query returns, newest first, and the
      input just recorded is not among them. */
  lemma ContextLeavesOutInput(history: seq<Turn>, userInput: string, n: int)
    requires 0 < n < Min(RecentLimit, |history| + 1)
    ensures var h' := history + [Turn(UserRole, userInput)];
            var lo := |h'| - Min(RecentLimit, |h'|);
            lo + n <= |history| &&
            ContextFor(h', n) == FormatContext(Reverse(history[lo..lo + n]))
  {
    var h' := history + [Turn(UserRole, userInput)];
    var lo := |h'| - Min(RecentLimit, |h'|);
    WindowSkipsNewest(h', n);
    assert h'[lo..lo + n] == history[lo..lo + n];
  }
}
