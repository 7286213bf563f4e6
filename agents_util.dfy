/**
 * lang_graph/chat_bot/multi_agent/agents_util.py: the state of the
 * multi-agent graph, the node wrapper `create_node` and the router that
 * every agent node's outgoing edges consult.
 */
module AgentsUtil {
  import opened Common

  /**
   * `AgentState`: the message history and the name of the agent that spoke
   * last. `sender` is `None` until some agent node has run (the input state
   * holds only `messages`).
   */
  datatype AgentState = AgentState(messages: seq<Message>, sender: Option<string>)

  /** What a node returns; a key the node leaves out is `None` / empty. */
  datatype Update = Update(messages: seq<Message>, sender: Option<string>)

  /**
   * The merge rule of `AgentState`: `messages` is reduced with
   * `operator.add`, so the update is appended after the unchanged history;
   * `sender` has no reducer, so a returned value replaces the old one.
   */
  function Merge(s: AgentState, u: Update): (r: AgentState)
    ensures |r.messages| == |s.messages| + |u.messages|
    ensures r.messages[..|s.messages|] == s.messages
    ensures r.messages[|s.messages|..] == u.messages
    ensures u.sender.Some? ==> r.sender == u.sender
    ensures u.sender.None? ==> r.sender == s.sender
  {
    AgentState(s.messages + u.messages, if u.sender.Some? then u.sender else s.sender)
  }

  /**
   * `create_node(state, agent, name)` once the agent has answered with
   * `result`: a tool message is passed through; any other message is rebuilt
   * as an AI message named `name` that keeps its text and its tool calls (a
   * message class without `tool_calls` yields an AI message with none). The
   * update holds exactly that one message and names `name` as sender.
   */
  function CreateNode(result: Message, name: string): (u: Update)
    ensures |u.messages| == 1 && u.sender == Some(name)
    ensures u.messages[0].content == result.content
    ensures result.kind == Tool ==> u.messages[0] == result
    ensures result.kind != Tool ==>
      && u.messages[0].kind == Ai
      && u.messages[0].name == Some(name)
      && u.messages[0].toolCalls.Some?
      && (result.toolCalls.Some? ==> u.messages[0].toolCalls == result.toolCalls)
      && (result.toolCalls.None? ==> u.messages[0].toolCalls == Some([]))
  {
    var tagged :=
      if result.kind == Tool then result
      else Message(Ai, result.content,
                   Some(if result.toolCalls.Some? then result.toolCalls.value else []),
                   Some(name));
    Update([tagged], Some(name))
  }

  /** The literals `router` is declared to return. */
  datatype Route = CallTool | Finish | ExcelTool | ChartTool | Continue

  function RouteName(r: Route): string
  {
    match r
    case CallTool => "call_tool"
    case Finish => "__end__"
    case ExcelTool => "excel_tool"
    case ChartTool => "chart_tool"
    case Continue => "continue"
  }

  const FinalJob: string := "FINAL JOB"

  /**
   * Lines 64-68 of `router`, for any tool-call list: the first call is read
   * (an empty list raises `IndexError`); a call whose name contains
   * "excel_tool" gives `"excel_tool"`, any other gives `"continue"`.
   * A tool call is a non-empty dictionary, so it is always truthy.
   */
  function ExcelOrContinue(calls: seq<ToolCall>): (r: Result<Route>)
    ensures r.Err? <==> |calls| == 0
    ensures r.Err? ==> r.error == IndexError
    ensures r.Ok? ==> (r.value == ExcelTool <==> Contains(calls[0].name, "excel_tool"))
    ensures r.Ok? ==> r.value in {ExcelTool, Continue}
  {
    if |calls| == 0 then Err(IndexError)
    else if Contains(calls[0].name, "excel_tool") then Ok(ExcelTool)
    else Ok(Continue)
  }

  /**
   * `router(state)`: looks only at the last message. Tool calls win over
   * everything; without them the text "FINAL JOB" ends the run; otherwise
   * line 64 reads `tool_calls[0]` of the list it has just found empty.
   */
  function Router(messages: seq<Message>): (r: Result<Route>)
    ensures |messages| == 0 ==> r == Err(IndexError)
    ensures r.Ok? ==> r.value == CallTool || r.value == Finish
    ensures r == Ok(CallTool) <==>
      |messages| > 0 && Last(messages).toolCalls.Some? && |Last(messages).toolCalls.value| > 0
  {
    if |messages| == 0 then Err(IndexError)
    else
      var last := Last(messages);
      match last.toolCalls
      case None => Err(AttributeError("tool_calls"))
      case Some(calls) =>
        if |calls| > 0 then Ok(CallTool)
        else if Contains(last.content, FinalJob) then Ok(Finish)
        else ExcelOrContinue(calls)
  }

  /**
   * The router that the declared answers and the comment at line 67
   * describe: tool calls first, then "FINAL JOB", and otherwise
   * `"continue"` instead of reading `tool_calls[0]`. It reads `tool_calls`
   * on line 59 just as `router` does.
   */
  function RouterAsDocumented(messages: seq<Message>): (r: Result<Route>)
    ensures |messages| == 0 ==> r == Err(IndexError)
    ensures r.Ok? ==> r.value in {CallTool, Finish, Continue}
    ensures r == Ok(CallTool) <==>
      |messages| > 0 && Last(messages).toolCalls.Some? && |Last(messages).toolCalls.value| > 0
    ensures r == Ok(Continue) <==>
      |messages| > 0 && Last(messages).toolCalls == Some([]) && !Contains(Last(messages).content, FinalJob)
  {
    if |messages| == 0 then Err(IndexError)
    else
      var last := Last(messages);
      match last.toolCalls
      case None => Err(AttributeError("tool_calls"))
      case Some(calls) =>
        if |calls| > 0 then Ok(CallTool)
        else if Contains(last.content, FinalJob) then Ok(Finish)
        else Ok(Continue)
  }

  /**
   * The two routers disagree exactly where `router` raises `IndexError` on
   * a non-empty history, that is at line 64; there the documented one
   * answers `"continue"`.
   */
  lemma RouterDiffersOnlyAtLine64(messages: seq<Message>)
    ensures Router(messages) != RouterAsDocumented(messages) <==>
      |messages| > 0 && Router(messages) == Err(IndexError)
    ensures |messages| > 0 && Router(messages) == Err(IndexError) ==>
      RouterAsDocumented(messages) == Ok(Continue)
  {
  }

  /** Which router a graph consults: `router` as written, or as documented. */
  datatype Version = AsWritten | AsDocumented

  function RouterOf(v: Version, messages: seq<Message>): Result<Route>
  {
    match v
    case AsWritten => Router(messages)
    case AsDocumented => RouterAsDocumented(messages)
  }

  /** Tool calls decide alone, whatever the text says (even "FINAL JOB"). */
  lemma RouterToolCallsFirst(messages: seq<Message>, calls: seq<ToolCall>)
    requires |messages| > 0 && Last(messages).toolCalls == Some(calls) && |calls| > 0
    ensures Router(messages) == Ok(CallTool)
  {
  }

  /** No tool calls and a text containing "FINAL JOB": the run ends. */
  lemma RouterFinalJob(messages: seq<Message>, i: int)
    requires |messages| > 0 && Last(messages).toolCalls == Some([])
    requires OccursAt(Last(messages).content, FinalJob, i)
    ensures Router(messages) == Ok(Finish)
  {
    ContainsAt(Last(messages).content, FinalJob, i);
  }

  /**
   * No tool calls and no "FINAL JOB": line 64 indexes the empty list, so
   * `router` raises instead of answering `"continue"`.
   */
  lemma RouterFailsInsteadOfContinuing(messages: seq<Message>)
    requires |messages| > 0 && Last(messages).toolCalls == Some([])
    requires forall i :: !OccursAt(Last(messages).content, FinalJob, i)
    ensures Router(messages) == Err(IndexError)
  {
  }

  /** A last message without `tool_calls` (a tool or human message) raises. */
  lemma RouterNeedsToolCallsAttribute(messages: seq<Message>)
    requires |messages| > 0 && Last(messages).toolCalls.None?
    ensures Router(messages) == Err(AttributeError("tool_calls"))
  {
  }

  /** Of the five declared answers, `router` can give only two. */
  lemma RouterNeverContinues(messages: seq<Message>)
    ensures Router(messages) != Ok(Continue)
    ensures Router(messages) != Ok(ExcelTool)
    ensures Router(messages) != Ok(ChartTool)
  {
  }

  /** Histories that end in the same message are routed alike. */
  lemma RouterReadsLastOnly(a: seq<Message>, b: seq<Message>)
    requires |a| > 0 && |b| > 0 && Last(a) == Last(b)
    ensures Router(a) == Router(b)
  {
  }
}
