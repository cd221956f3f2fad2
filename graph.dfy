/** The answer-orchestration graph of src/main.py: the message history, the
    three nodes `user_or_tool`, `tools` and `generate`, the router, and the
    wiring that fixes which nodes run. The chat model is an oracle from a
    message history to a reply; the tool node's dispatch is an oracle from a
    tool call to the tool's content. */
module Graph {
  import opened Seqs
  import opened Text

  datatype ToolCall = ToolCall(id: string, name: string, args: string)

  /** A conversation message, by its `type`. Only AI messages carry tool calls;
      only tool messages carry the id of the call they answer. */
  datatype Message =
    | Human(content: string)
    | System(content: string)
    | AI(content: string, toolCalls: seq<ToolCall>)
    | Tool(content: string, toolCallId: string)

  /** What the chat model returns from `invoke`: an AI message's parts. */
  datatype Reply = Reply(content: string, toolCalls: seq<ToolCall>)

  datatype Route = ToTools | ToEnd

  datatype Node = UserOrTool | Tools | Generate

  predicate HasToolCalls(m: Message)
  {
    m.AI? && m.toolCalls != []
  }

  function Last(history: seq<Message>): Message
    requires history != []
  {
    history[|history| - 1]
  }

  /** `router`: to the tool node exactly when the last message is an AI message
      with a non-empty `tool_calls`; human, system and tool messages, and AI
      messages without calls, end the run. */
  function Router(history: seq<Message>): (r: Route)
    requires history != []
    ensures r == ToTools <==> Last(history).AI? && |Last(history).toolCalls| > 0
    ensures !Last(history).AI? ==> r == ToEnd
  {
    if HasToolCalls(Last(history)) then ToTools else ToEnd
  }

  function AIMessage(r: Reply): Message
  {
    AI(r.content, r.toolCalls)
  }

  /** `query_or_respond`: the tool-bound model's reply to the whole history, as
      the one message this node adds. */
  function QueryOrRespond(history: seq<Message>, decide: seq<Message> -> Reply): (m: Message)
    ensures m.AI? && m.content == decide(history).content && m.toolCalls == decide(history).toolCalls
  {
    AIMessage(decide(history))
  }

  /** The tool node: one tool message per call of the last AI message, in call
      order, each carrying its call's id. */
  function ToolNode(history: seq<Message>, runTool: ToolCall -> string): (msgs: seq<Message>)
    requires history != [] && HasToolCalls(Last(history))
    ensures |msgs| == |Last(history).toolCalls|
    ensures forall i :: 0 <= i < |msgs| ==>
      msgs[i].Tool? && msgs[i].toolCallId == Last(history).toolCalls[i].id
      && msgs[i].content == runTool(Last(history).toolCalls[i])
  {
    var calls := Last(history).toolCalls;
    seq(|calls|, i requires 0 <= i < |calls| => Tool(runTool(calls[i]), calls[i].id))
  }

  /** Where the trailing run of tool messages starts: every message from `k` on
      is a tool message and the one before `k`, if any, is not. */
  function TrailingToolStart(history: seq<Message>): (k: nat)
    ensures k <= |history|
    ensures forall j :: k <= j < |history| ==> history[j].Tool?
    ensures k == 0 || !history[k - 1].Tool?
  {
    if history == [] || !Last(history).Tool? then |history|
    else TrailingToolStart(history[..|history| - 1])
  }

  /** Those two properties single out the start: the run is the longest one. */
  lemma TrailingToolStartUnique(history: seq<Message>, k: nat)
    requires k <= |history|
    requires forall j :: k <= j < |history| ==> history[j].Tool?
    requires k == 0 || !history[k - 1].Tool?
    ensures k == TrailingToolStart(history)
  {
  }

  /** `generate`'s backward scan: collects tool messages from the end until the
      first non-tool message, then reverses them into history order. */
  method CollectRecentToolMessages(history: seq<Message>) returns (toolMessages: seq<Message>)
    ensures toolMessages == history[TrailingToolStart(history)..]
  {
    var recent: seq<Message> := [];
    var i := |history|;
    while i > 0 && history[i - 1].Tool?
      invariant 0 <= i <= |history|
      invariant recent == Reversed(history[i..])
      invariant forall j :: i <= j < |history| ==> history[j].Tool?
    {
      assert history[i - 1..][1..] == history[i..];
      recent := recent + [history[i - 1]];
      i := i - 1;
    }
    TrailingToolStartUnique(history, i);
    ReversedTwice(history[i..]);
    toolMessages := Reversed(recent);
  }

  /** The non-empty contents of `msgs`, in order. */
  function NonEmptyContents(msgs: seq<Message>): (parts: seq<string>)
    ensures forall i :: 0 <= i < |parts| ==> parts[i] != ""
    ensures |parts| <= |msgs|
    ensures forall s :: s in parts <==> s != "" && exists i :: 0 <= i < |msgs| && msgs[i].content == s
  {
    if msgs == [] then []
    else (if msgs[0].content != "" then [msgs[0].content] else []) + NonEmptyContents(msgs[1..])
  }

  lemma {:induction false} NonEmptyContentsAppend(a: seq<Message>, b: seq<Message>)
    ensures NonEmptyContents(a + b) == NonEmptyContents(a) + NonEmptyContents(b)
  {
    if a == [] {
      assert a + b == b;
    } else {
      assert (a + b)[1..] == a[1..] + b;
      NonEmptyContentsAppend(a[1..], b);
    }
  }

  /** `docs_content`: the non-empty contents of the tool messages joined by blank
      lines. It is empty exactly when every content is empty. */
  function DocsContent(toolMessages: seq<Message>): (docs: string)
    ensures docs == "" <==> forall i :: 0 <= i < |toolMessages| ==> toolMessages[i].content == ""
  {
    var parts := NonEmptyContents(toolMessages);
    JoinNonEmpty("\n\n", parts);
    NoContentIff(toolMessages);
    Join("\n\n", parts)
  }

  lemma {:induction false} NoContentIff(msgs: seq<Message>)
    ensures NonEmptyContents(msgs) == [] <==> forall i :: 0 <= i < |msgs| ==> msgs[i].content == ""
  {
    if msgs != [] {
      NoContentIff(msgs[1..]);
      assert forall i :: 1 <= i < |msgs| ==> msgs[i] == msgs[1..][i - 1];
    }
  }

  /** The fixed instruction of `generate`'s system message, verbatim (Python's
      adjacent literals are concatenated without separators). */
  const Instruction: string :=
    "You are a statistics graduate research assistant "
    + "responsible for question-answering tasks. "
    + "Use the following pieces of retrieved context to answer "
    + "the question. If you don't know the answer, say that you "
    + "don't know. Use three sentences maximum, list maximum 5 points"
    + "and keep the answer concise. Format your answer as usual text,"
    + "not markdown."
    + "\n\n"

  /** Messages that go into the answer prompt: human, system, and AI messages
      without tool calls. */
  predicate KeptInPrompt(m: Message)
  {
    m.Human? || m.System? || (m.AI? && m.toolCalls == [])
  }

  /** `conversation_messages`: the history filtered by role, in history order. */
  function ConversationMessages(history: seq<Message>): (kept: seq<Message>)
    ensures |kept| <= |history|
    ensures forall m :: m in kept <==> m in history && KeptInPrompt(m)
  {
    if history == [] then []
    else
      var rest := ConversationMessages(history[1..]);
      assert forall m :: m in history <==> m == history[0] || m in history[1..];
      (if KeptInPrompt(history[0]) then [history[0]] else []) + rest
  }

  lemma {:induction false} ConversationMessagesAppend(a: seq<Message>, b: seq<Message>)
    ensures ConversationMessages(a + b) == ConversationMessages(a) + ConversationMessages(b)
  {
    if a == [] {
      assert a + b == b;
    } else {
      assert (a + b)[1..] == a[1..] + b;
      ConversationMessagesAppend(a[1..], b);
    }
  }

  /** The prompt `generate` sends: one system message, the instruction followed
      by the context block, then the filtered conversation. */
  function Prompt(history: seq<Message>): (p: seq<Message>)
    ensures |p| == 1 + |ConversationMessages(history)|
    ensures p[0].System? && Instruction <= p[0].content
    ensures forall m :: m in p[1..] ==> !m.Tool? && !HasToolCalls(m)
  {
    [System(Instruction + DocsContent(history[TrailingToolStart(history)..]))] + ConversationMessages(history)
  }

  /** The prompt's shape: its first message is a system message ending with the
      context block of the trailing tool run, and the rest is the history with
      tool messages and tool-calling AI messages dropped. */
  lemma PromptShape(history: seq<Message>)
    ensures var p := Prompt(history); var docs := DocsContent(history[TrailingToolStart(history)..]);
      && p[0].System?
      && |p[0].content| >= |docs|
      && p[0].content[|p[0].content| - |docs|..] == docs
      && p[1..] == ConversationMessages(history)
      && (forall m :: m in p[1..] ==> !m.Tool? && !HasToolCalls(m))
  {
    var p := Prompt(history);
    var docs := DocsContent(history[TrailingToolStart(history)..]);
    assert p[0].content == Instruction + docs;
  }

  /** `generate`: scans for the trailing tool messages, builds the prompt and
      returns the plain model's reply as the one message it adds. */
  method GenerateNode(history: seq<Message>, answer: seq<Message> -> Reply) returns (m: Message)
    ensures m == AIMessage(answer(Prompt(history)))
  {
    var toolMessages := CollectRecentToolMessages(history);
    var docsContent := DocsContent(toolMessages);
    var systemMessageContent := Instruction + docsContent;
    var conversationMessages := ConversationMessages(history);
    var prompt := [System(systemMessageContent)] + conversationMessages;
    var response := answer(prompt);
    m := AIMessage(response);
  }

  /** One run of the compiled graph, as streamed in "values" mode: the path of
      nodes taken and the state (the whole history) before the first node and
      after each node. */
  datatype Trace = Trace(path: seq<Node>, states: seq<seq<Message>>)

  /** The graph's wiring: `user_or_tool`, then by the router either the end or
      `tools` followed by `generate` and the end. */
  function Execute(initial: seq<Message>, decide: seq<Message> -> Reply, runTool: ToolCall -> string,
                   answer: seq<Message> -> Reply): (t: Trace)
    ensures t.path == [UserOrTool] || t.path == [UserOrTool, Tools, Generate]
    ensures t.path == [UserOrTool] <==> decide(initial).toolCalls == []
    ensures |t.states| == |t.path| + 1 && t.states[0] == initial
    ensures forall i, j :: 0 <= i < j < |t.states| ==> t.states[i] < t.states[j]
    ensures Last(t.states[|t.states| - 1]).AI?
  {
    var s1 := initial + [QueryOrRespond(initial, decide)];
    if Router(s1) == ToEnd then
      Trace([UserOrTool], [initial, s1])
    else
      var s2 := s1 + ToolNode(s1, runTool);
      var s3 := s2 + [AIMessage(answer(Prompt(s2)))];
      Trace([UserOrTool, Tools, Generate], [initial, s1, s2, s3])
  }

  /** The graph run as the nodes execute it, with `generate` scanning the history
      in place of the specification's `Prompt`. */
  method Run(initial: seq<Message>, decide: seq<Message> -> Reply, runTool: ToolCall -> string,
             answer: seq<Message> -> Reply) returns (path: seq<Node>, states: seq<seq<Message>>)
    ensures Trace(path, states) == Execute(initial, decide, runTool, answer)
  {
    var history := initial;
    states := [history];
    history := history + [QueryOrRespond(history, decide)];
    states := states + [history];
    path := [UserOrTool];
    if Router(history) == ToTools {
      history := history + ToolNode(history, runTool);
      states := states + [history];
      path := path + [Tools];
      var response := GenerateNode(history, answer);
      history := history + [response];
      states := states + [history];
      path := path + [Generate];
    }
  }

  /** A tool step ends the history with exactly the tool messages it added,
      when the message before them is not a tool message. */
  lemma TrailingRunAfterToolStep(before: seq<Message>, tools: seq<Message>)
    requires before != [] && !Last(before).Tool?
    requires forall i :: 0 <= i < |tools| ==> tools[i].Tool?
    ensures TrailingToolStart(before + tools) == |before|
    ensures (before + tools)[|before|..] == tools
  {
    var h := before + tools;
    assert forall j :: |before| <= j < |h| ==> h[j] == tools[j - |before|];
    TrailingToolStartUnique(h, |before|);
    assert h[|before|..] == tools;
  }

  /** After one tool round (a tool-calling AI turn followed by its tool
      messages), the prompt's context block is built from exactly those tool
      messages, and its conversation is the filtered history before the round. */
  lemma PromptAfterToolRound(initial: seq<Message>, ai: Message, tools: seq<Message>)
    requires ai.AI? && ai.toolCalls != []
    requires forall i :: 0 <= i < |tools| ==> tools[i].Tool?
    ensures var s2 := initial + [ai] + tools;
      && s2[TrailingToolStart(s2)..] == tools
      && DocsContent(s2[TrailingToolStart(s2)..]) == Join("\n\n", NonEmptyContents(tools))
      && Prompt(s2)[1..] == ConversationMessages(initial)
  {
    var s1 := initial + [ai];
    TrailingRunAfterToolStep(s1, tools);
    ConversationMessagesAppend(s1, tools);
    ConversationMessagesAppend(initial, [ai]);
    assert ConversationMessages([ai]) == [];
    ToolsNotInPrompt(tools);
  }

  /** When the model calls tools, `generate` sees exactly those tool outputs:
      its context block joins the non-empty results of the calls in call order,
      and its conversation drops the tool-calling turn and the tool messages,
      leaving the filtered initial history. */
  lemma GenerateSeesToolOutputs(initial: seq<Message>, decide: seq<Message> -> Reply,
                                runTool: ToolCall -> string, answer: seq<Message> -> Reply)
    requires decide(initial).toolCalls != []
    ensures var s1 := initial + [QueryOrRespond(initial, decide)];
      var tools := ToolNode(s1, runTool);
      var s2 := s1 + tools;
      && Execute(initial, decide, runTool, answer).states[2] == s2
      && s2[TrailingToolStart(s2)..] == tools
      && DocsContent(s2[TrailingToolStart(s2)..]) == Join("\n\n", NonEmptyContents(tools))
      && Prompt(s2)[1..] == ConversationMessages(initial)
  {
    var ai := QueryOrRespond(initial, decide);
    PromptAfterToolRound(initial, ai, ToolNode(initial + [ai], runTool));
  }

  lemma {:induction false} ToolsNotInPrompt(msgs: seq<Message>)
    requires forall i :: 0 <= i < |msgs| ==> msgs[i].Tool?
    ensures ConversationMessages(msgs) == []
  {
    if msgs != [] {
      ToolsNotInPrompt(msgs[1..]);
    }
  }
}
