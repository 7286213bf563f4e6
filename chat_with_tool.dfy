/**
 * lang_graph/chat_bot/chat_with_tool.py: a chatbot with one search tool.
 * `route_tools` decides after each chatbot answer whether the tool runs;
 * the tool always hands back to the chatbot. The console loop stops on a
 * quit command.
 */
module ChatWithTool {
  import opened Common

  /** `route_tools` accepts either a bare message list or a state dictionary. */
  datatype ChatState =
    | ListState(items: seq<Message>)
    | DictState(messages: Option<seq<Message>>) // None: no "messages" key

  datatype ToolRoute = ToTools | ToEnd

  function ToolRouteName(r: ToolRoute): string
  {
    match r
    case ToTools => "tools"
    case ToEnd => "__end__"
  }

  /** The beginning of the `ValueError` text; the rendering of the state is not modelled. */
  const NoMessagesText: string := "输入状态中未找到消息: "

  /** Whether a message has a `tool_calls` attribute holding at least one call. */
  predicate RequestsTools(m: Message)
  {
    m.toolCalls.Some? && |m.toolCalls.value| > 0
  }

  /** The message `route_tools` inspects, if the state has one. */
  function Inspected(state: ChatState): Option<Message>
  {
    match state
    case ListState(items) => if |items| == 0 then None else Some(Last(items))
    case DictState(None) => None
    case DictState(Some(ms)) => if |ms| == 0 then None else Some(Last(ms))
  }

  /**
   * `route_tools(state)`: a list state is inspected at its last element (an
   * empty list raises `IndexError`); a dictionary state at the last element
   * of "messages" (missing or empty raises `ValueError`). The answer is
   * "tools" exactly when that message has a non-empty `tool_calls`.
   */
  function RouteTools(state: ChatState): (r: Result<ToolRoute>)
    ensures r.Err? <==> Inspected(state).None?
    ensures state.ListState? && r.Err? ==> r.error == IndexError
    ensures state.DictState? && r.Err? ==> r.error == ValueError(NoMessagesText)
    ensures r == Ok(ToTools) <==> Inspected(state).Some? && RequestsTools(Inspected(state).value)
    ensures r == Ok(ToEnd) <==> Inspected(state).Some? && !RequestsTools(Inspected(state).value)
  {
    var last :=
      match state
      case ListState(items) => if |items| == 0 then Err(IndexError) else Ok(Last(items))
      case DictState(messages) =>
        if messages.None? || |messages.value| == 0 then Err(ValueError(NoMessagesText))
        else Ok(Last(messages.value));
    match last
    case Err(e) => Err(e)
    case Ok(m) =>
      if m.toolCalls.Some? && |m.toolCalls.value| > 0 then Ok(ToTools) else Ok(ToEnd)
  }

  /** A message class without `tool_calls` (a human message, say) ends the turn. */
  lemma RouteToolsWithoutAttribute(messages: seq<Message>)
    requires |messages| > 0 && Last(messages).toolCalls.None?
    ensures RouteTools(DictState(Some(messages))) == Ok(ToEnd)
    ensures RouteTools(ListState(messages)) == Ok(ToEnd)
  {
  }

  /** A list and a dictionary holding the same messages are routed alike. */
  lemma RouteToolsSameForListAndDict(messages: seq<Message>)
    requires |messages| > 0
    ensures RouteTools(ListState(messages)) == RouteTools(DictState(Some(messages)))
  {
  }

  datatype ChatNode = Chatbot | Tools

  datatype Position = At(node: ChatNode) | Ended | Failed(error: PyError)

  datatype Config = Config(messages: seq<Message>, pos: Position)

  /** The chatbot's answer when `chatbot` runs, the tool messages when `tools` runs. */
  datatype Reply = Reply(answer: Message, toolResults: seq<Message>)

  /**
   * The conditional edge of `chatbot`: "tools" leads to the node `tools`,
   * "__end__" to the end of the turn.
   */
  function ChatbotEdge(route: ToolRoute): (p: Position)
    ensures p.At? <==> route == ToTools
    ensures p.At? ==> p.node == Tools && ToolRouteName(route) == "tools"
    ensures !p.At? ==> p == Ended
  {
    match route
    case ToTools => At(Tools)
    case ToEnd => Ended
  }

  /**
   * `START -> chatbot`, after the user's line has been appended to the
   * history kept for the conversation.
   */
  function StartTurn(history: seq<Message>, userInput: string): (c: Config)
    ensures c.pos == At(Chatbot)
    ensures |c.messages| == |history| + 1 && c.messages[..|history|] == history
    ensures Last(c.messages).kind == Human && Last(c.messages).content == userInput
  {
    Config(history + [HumanMessage(userInput)], At(Chatbot))
  }

  /** Runs the current node, appends what it returns and follows its edge. */
  function Step(c: Config, reply: Reply): (r: Config)
    requires c.pos.At?
    ensures c.pos.node == Chatbot ==> r.messages == c.messages + [reply.answer]
    ensures c.pos.node == Tools ==> r.messages == c.messages + reply.toolResults
    ensures c.pos.node == Tools ==> r.pos == At(Chatbot)
    ensures c.pos.node == Chatbot ==> r.pos != At(Chatbot) && !r.pos.Failed?
  {
    match c.pos.node
    case Chatbot =>
      var ms := c.messages + [reply.answer];
      (match RouteTools(DictState(Some(ms)))
       case Err(e) => Config(ms, Failed(e))
       case Ok(route) => Config(ms, ChatbotEdge(route)))
    case Tools =>
      Config(c.messages + reply.toolResults, At(Chatbot))
  }

  /**
   * Runs a turn from `c`, one reply per node execution, until it ends or
   * the replies run out; returns the last configuration and the nodes run.
   */
  function Run(c: Config, replies: seq<Reply>): (Config, seq<ChatNode>)
    decreases |replies|
  {
    if !c.pos.At? || |replies| == 0 then (c, [])
    else
      var (last, trace) := Run(Step(c, replies[0]), replies[1..]);
      (last, [c.pos.node] + trace)
  }

  function Partner(n: ChatNode): ChatNode
  {
    if n == Chatbot then Tools else Chatbot
  }

  /**
   * The nodes of a turn alternate `chatbot`, `tools`, `chatbot`, ...; the
   * turn never fails (the chatbot has just appended a message, so
   * `route_tools` always finds one); and a turn that ends does so right
   * after `chatbot`.
   */
  lemma {:induction false} RunAlternates(c: Config, replies: seq<Reply>)
    requires !c.pos.Failed?
    ensures !Run(c, replies).0.pos.Failed?
    ensures forall i :: 0 <= i < |Run(c, replies).1| ==>
      Run(c, replies).1[i] == if i % 2 == 0 then c.pos.node else Partner(c.pos.node)
    ensures c.pos.At? && Run(c, replies).0.pos == Ended ==>
      |Run(c, replies).1| > 0 && Last(Run(c, replies).1) == Chatbot
    decreases |replies|
  {
    if !c.pos.At? || |replies| == 0 {
    } else {
      var next := Step(c, replies[0]);
      RunAlternates(next, replies[1..]);
      var rest := Run(next, replies[1..]).1;
      var trace := Run(c, replies).1;
      assert trace == [c.pos.node] + rest;
      forall i | 0 <= i < |trace|
        ensures trace[i] == if i % 2 == 0 then c.pos.node else Partner(c.pos.node)
      {
        if i > 0 {
          assert trace[i] == rest[i - 1];
          if next.pos.At? {
            assert next.pos.node == Partner(c.pos.node);
          }
        }
      }
      if Run(c, replies).0.pos == Ended && !next.pos.At? {
        assert rest == [];
        assert next.pos == Ended;
      }
    }
  }

  /** The history of a turn only grows, at its end. */
  lemma {:induction false} RunAppendOnly(c: Config, replies: seq<Reply>)
    ensures |c.messages| <= |Run(c, replies).0.messages|
    ensures Run(c, replies).0.messages[..|c.messages|] == c.messages
    decreases |replies|
  {
    if !c.pos.At? || |replies| == 0 {
    } else {
      var next := Step(c, replies[0]);
      RunAppendOnly(next, replies[1..]);
      var m := Run(c, replies).0.messages;
      assert m[..|next.messages|] == next.messages;
      assert m[..|c.messages|] == next.messages[..|c.messages|];
    }
  }

  /**
   * A turn starts at `chatbot`, alternates with `tools`, never fails, ends
   * only right after `chatbot`, and keeps the earlier history and the
   * user's line in front of everything it adds.
   */
  lemma TurnShape(history: seq<Message>, userInput: string, replies: seq<Reply>)
    ensures var (last, trace) := Run(StartTurn(history, userInput), replies);
      && !last.pos.Failed?
      && (forall i :: 0 <= i < |trace| ==> trace[i] == if i % 2 == 0 then Chatbot else Tools)
      && (last.pos == Ended ==> |trace| > 0 && Last(trace) == Chatbot)
      && |history| < |last.messages|
      && last.messages[..|history| + 1] == history + [HumanMessage(userInput)]
  {
    var c := StartTurn(history, userInput);
    RunAlternates(c, replies);
    RunAppendOnly(c, replies);
  }

  // ---------------------------------------------------------------------
  // The quit command of the console loop.

  function LowerChar(c: char): char
  {
    if 'A' <= c <= 'Z' then (c as int + 32) as char else c
  }

  function UpperChar(c: char): char
  {
    if 'a' <= c <= 'z' then (c as int - 32) as char else c
  }

  /** `s.lower()` on the letters A-Z. */
  function Lower(s: string): (r: string)
    ensures |r| == |s|
    ensures forall i :: 0 <= i < |s| ==> r[i] == LowerChar(s[i])
  {
    if |s| == 0 then "" else [LowerChar(s[0])] + Lower(s[1..])
  }

  /** `user_input.lower() in ["quit", "exit", "q"]`. */
  predicate IsQuitCommand(userInput: string): (r: bool)
    ensures r ==> |userInput| == 1 || |userInput| == 4
  {
    Lower(userInput) in ["quit", "exit", "q"]
  }

  /** `s` spells the lower-case word `w` with each letter in either case. */
  ghost predicate SpellsIgnoringCase(s: string, w: string)
  {
    |s| == |w| && forall i :: 0 <= i < |s| ==> s[i] == w[i] || s[i] == UpperChar(w[i])
  }

  lemma LowerCharIs(c: char, l: char)
    requires 'a' <= l <= 'z'
    ensures LowerChar(c) == l <==> c == l || c == UpperChar(l)
  {
  }

  lemma {:induction false} LowerIsWord(s: string, w: string)
    requires forall i :: 0 <= i < |w| ==> 'a' <= w[i] <= 'z'
    ensures Lower(s) == w <==> SpellsIgnoringCase(s, w)
  {
    if |s| == |w| {
      forall i | 0 <= i < |s|
        ensures LowerChar(s[i]) == w[i] <==> s[i] == w[i] || s[i] == UpperChar(w[i])
      {
        LowerCharIs(s[i], w[i]);
      }
      if SpellsIgnoringCase(s, w) {
        assert Lower(s) == w;
      }
    }
  }

  /**
   * The session ends exactly on "quit", "exit" or "q" written in any mix of
   * upper- and lower-case letters, and on nothing else (no trimming: " q"
   * does not quit).
   */
  lemma QuitCommands(userInput: string)
    ensures IsQuitCommand(userInput) <==>
      SpellsIgnoringCase(userInput, "quit") ||
      SpellsIgnoringCase(userInput, "exit") ||
      SpellsIgnoringCase(userInput, "q")
  {
    LowerIsWord(userInput, "quit");
    LowerIsWord(userInput, "exit");
    LowerIsWord(userInput, "q");
  }
}
