# AgentHub routing core in Dafny

AgentHub is a set of LangChain / LangGraph demo scripts. The only logic the scripts own is small:

- how each chat graph decides, after a node has run, whether to call a tool, go to another node or stop;
- how nodes wrap their replies into state updates;
- how the reflection loop swaps roles and bounds its rounds;
- the text the tools hand back;
- how retrieved documents are joined into a prompt context.

This project models that logic as pure Dafny functions over datatypes and proves what the scripts rely on.

The modules follow the scripts:

| module | script |
|---|---|
| `Common` | LangChain messages and tool calls, Python errors as a `Result`, `str.__contains__` and `str.join` |
| `AgentsUtil` | `lang_graph/chat_bot/multi_agent/agents_util.py`: `AgentState` and its merge rule, `create_node`, `router` |
| `ChartGen` | `lang_graph/chat_bot/multi_agent/chart_gen_multi_agent.py`: the edge table of the search / chart / excel / tool graph, and runs from START under `recursion_limit` 10 |
| `AgentTools` | `lang_graph/chat_bot/multi_agent/tools.py`: the strings of `python_repl` and the dispatch of `export_to_excel` / `excel_tool` |
| `ChatWithTool` | `lang_graph/chat_bot/chat_with_tool.py`: `route_tools`, the `chatbot` / `tools` edges, the quit command |
| `Reflection` | `lang_graph/chat_bot/reflection/article/client.py`: writer / teacher loop, `teacher_node`'s role swap, `MaxRound` = 6 |
| `Rag`, `RagDemo` | `format_docs` of `rag/rag.py` and of `rag/rag_demo.py` |

## How the graphs are modelled

A graph run is a sequence of node executions:

- `Step(config, reply)` (in the multi-agent graph also given the router `Version`) runs the current node with what the outside world answered (the language model's message, or the tool messages), merges the node's update into the state, and follows the node's outgoing edge.
- `Run` repeats `Step` over a sequence of replies.

The language model and the tools are therefore inputs, not computations. A Python exception is `Err(PyError)`; in a run it becomes the position `Failed(error)`.

## The multi-agent router, as written

In `agents_util.py`, the return type of `router` and the comment at line 67 say that a last message with neither tool calls nor "FINAL JOB" takes the "continue" branch. The model follows the code instead. In the code, line 59 has already found `tool_calls` empty in that case, so line 64 reads `tool_calls[0]` and raises `IndexError`. A message class without a `tool_calls` attribute raises `AttributeError` at line 59.

As a consequence:

- `router` only ever answers "call_tool" or "__end__" (`AgentsUtil.RouterNeverContinues`);
- the "continue" edges of the graph are never taken;
- a run from START only ever alternates `search_node` and `tool_node` (`ChartGen.RunFromStart`);
- `chart_node` and `excel_node` are never executed.

The model also defines the router as documented (`AgentsUtil.RouterAsDocumented`). It answers "continue" where line 64 raises, and agrees with `router` everywhere else (`AgentsUtil.RouterDiffersOnlyAtLine64`). The graph's `Step` and `Run` take the router `Version` as a parameter, so the same edge table can be run with either router:

- with the documented router, a first answer without tool calls and without "FINAL JOB" leads from `search_node` to `chart_node` (`ChartGen.DocumentedContinueReachesChart`);
- with either router, `excel_node` is never reached from START (`ChartGen.ExcelUnreachable`). No agent edge leads there, and the tool node goes there only for sender "excel_node", which only `excel_node` itself sets.

## Model

| member | source | states |
|---|---|---|
| `Common.Contains` | lang_graph/chat_bot/multi_agent/agents_util.py:61 | `sub in s` holds exactly when `sub` occurs in `s` at some index |
| `Common.Join` | rag/rag.py:61 | `sep.join(parts)` of no parts is "", of one part is that part unchanged, and is never shorter than the parts together |
| `AgentsUtil.Merge` | lang_graph/chat_bot/multi_agent/agents_util.py:11-15 | the `operator.add` reducer keeps the old history as a prefix and appends the update after it; a returned `sender` replaces the old one, a missing one leaves it |
| `AgentsUtil.CreateNode` | lang_graph/chat_bot/multi_agent/agents_util.py:39-52 | the update holds exactly one message and names the node as sender; a tool message passes unchanged; any other reply becomes an AI message named after the node, with the same text and tool calls (none when the reply had no `tool_calls`) |
| `AgentsUtil.ExcelOrContinue` | lang_graph/chat_bot/multi_agent/agents_util.py:64-68 | reading the first tool call raises `IndexError` exactly on an empty list; otherwise "excel_tool" exactly when the call's name contains "excel_tool", else "continue" |
| `AgentsUtil.Router` | lang_graph/chat_bot/multi_agent/agents_util.py:56-68 | an empty history raises `IndexError`; every answer is "call_tool" or "__end__"; "call_tool" exactly when the last message has a non-empty `tool_calls` |
| `AgentsUtil.RouterToolCallsFirst` | lang_graph/chat_bot/multi_agent/agents_util.py:59-60 | tool calls decide alone, whatever the text says |
| `AgentsUtil.RouterFinalJob` | lang_graph/chat_bot/multi_agent/agents_util.py:61-62 | with no tool calls, a text containing "FINAL JOB" ends the run |
| `AgentsUtil.RouterFailsInsteadOfContinuing` | lang_graph/chat_bot/multi_agent/agents_util.py:64 | with no tool calls and no "FINAL JOB", `router` raises `IndexError` rather than answering "continue" |
| `AgentsUtil.RouterNeedsToolCallsAttribute` | lang_graph/chat_bot/multi_agent/agents_util.py:57-59 | a last message without a `tool_calls` attribute raises `AttributeError` |
| `AgentsUtil.RouterNeverContinues` | lang_graph/chat_bot/multi_agent/agents_util.py:56 | of the five declared literals, "continue", "excel_tool" and "chart_tool" are never returned |
| `AgentsUtil.RouterReadsLastOnly` | lang_graph/chat_bot/multi_agent/agents_util.py:57 | two histories ending in the same message are routed alike |
| `AgentsUtil.RouterAsDocumented` | lang_graph/chat_bot/multi_agent/agents_util.py:56-68 | the router that the comment at line 67 describes: "call_tool" exactly when there are tool calls; "continue" exactly when there are none and no "FINAL JOB"; no other answer than those and "__end__" |
| `AgentsUtil.RouterDiffersOnlyAtLine64` | lang_graph/chat_bot/multi_agent/agents_util.py:64 | the two routers disagree exactly where `router` raises `IndexError` on a non-empty history, and there the documented one answers "continue" |
| `ChartGen.AgentEdge` | lang_graph/chat_bot/multi_agent/chart_gen_multi_agent.py:44-72 | every agent node sends "call_tool" to `tool_node` and "__end__" to END; "continue" goes from `search_node` to `chart_node` and from the other two to `search_node`; unmapped answers have no branch |
| `ChartGen.ToolEdge` | lang_graph/chat_bot/multi_agent/chart_gen_multi_agent.py:74-82 | the tool node returns to the agent named by `sender`, exactly when it is one of the three agent names; a state without `sender` raises `KeyError` |
| `ChartGen.Start` | lang_graph/chat_bot/multi_agent/chart_gen_multi_agent.py:84 | a run starts at `search_node` with the request as the only message, in a configuration from which runs stay reachable and away from `excel_node` |
| `ChartGen.Step` | lang_graph/chat_bot/multi_agent/chart_gen_multi_agent.py:30-41 | a tool step merges the tool messages without touching `sender`; an agent step merges `create_node`'s update under the node's own name |
| `ChartGen.Run` | lang_graph/chat_bot/multi_agent/chart_gen_multi_agent.py:99 | `recursion_limit` 10: a run executes at most the node executions the limit leaves, and a run still going when the limit is reached fails with the recursion error |
| `ChartGen.ExcelEnteredOnlyFromTool` | lang_graph/chat_bot/multi_agent/chart_gen_multi_agent.py:64-82 | whichever router is consulted, `excel_node` is entered only from `tool_node` with sender "excel_node" |
| `ChartGen.ExcelSenderOnlyFromExcel` | lang_graph/chat_bot/multi_agent/chart_gen_multi_agent.py:32 | whichever router is consulted, a step makes "excel_node" the sender only if `excel_node` ran or it already was |
| `ChartGen.ChartEnteredOnlyFromTool` | lang_graph/chat_bot/multi_agent/chart_gen_multi_agent.py:44-62 | with `router` as written, `chart_node` is entered only from `tool_node` with sender "chart_node"; the "continue" edge of `search_node` is never taken |
| `ChartGen.StepKeepsReachable` | lang_graph/chat_bot/multi_agent/chart_gen_multi_agent.py:44-84 | from `search_node`, or from `tool_node` with sender "search_node", a step goes only to the other of the two or ends, ends only from `search_node`, and keeps the history as a prefix |
| `ChartGen.RunAlternates` | lang_graph/chat_bot/multi_agent/chart_gen_multi_agent.py:74-99 | from such a configuration the executed nodes alternate with their partner, and the run stops in such a configuration |
| `ChartGen.RunEndsAfterSearch` | lang_graph/chat_bot/multi_agent/chart_gen_multi_agent.py:44-52 | a run that ends does so right after `search_node` |
| `ChartGen.RunAppendOnly` | lang_graph/chat_bot/multi_agent/agents_util.py:13 | with either router, a run only appends to the history |
| `ChartGen.RunFromStart` | lang_graph/chat_bot/multi_agent/chart_gen_multi_agent.py:84-99 | a run from START executes at most 10 nodes, alternating `search_node` and `tool_node`; it never executes `excel_node` or `chart_node` and never stops at either; it ends only after `search_node`; the request stays the first message |
| `ChartGen.RunKeepsExcelOut` | lang_graph/chat_bot/multi_agent/chart_gen_multi_agent.py:64-82 | with either router, a run that starts neither at `excel_node` nor with sender "excel_node" never executes `excel_node` and never stops at it |
| `ChartGen.ExcelUnreachable` | lang_graph/chat_bot/multi_agent/chart_gen_multi_agent.py:84 | with either router, a run from START never executes `excel_node` and never stops at it |
| `ChartGen.DocumentedContinueReachesChart` | lang_graph/chat_bot/multi_agent/chart_gen_multi_agent.py:44-52 | with the documented router, a first answer without tool calls or "FINAL JOB" takes `search_node` to `chart_node`; with `router` as written the same run fails with `IndexError` |
| `AgentTools.PythonRepl` | lang_graph/chat_bot/multi_agent/tools.py:14-28 | a failure is the prefix "Failed to execute. Error: " followed by the error's repr; a success places the header, the code verbatim, the "Stdout: " label, the output, then the closing line, at fixed positions |
| `AgentTools.PythonReplRoundTrip` | lang_graph/chat_bot/multi_agent/tools.py:19-28 | the error repr, or the output given the code, can be read back from the report unchanged |
| `AgentTools.SuccessAndFailureDiffer` | lang_graph/chat_bot/multi_agent/tools.py:22-24 | no success report equals any failure report |
| `AgentTools.SuccessEndsWithFinalJob` | lang_graph/chat_bot/multi_agent/tools.py:26-28 | a success report ends with, and so contains, "FINAL JOB" |
| `AgentTools.EchoedSuccessEndsRun` | lang_graph/chat_bot/multi_agent/tools.py:27 | an AI message that repeats a success report without tool calls makes `router` answer "__end__" |
| `AgentTools.ExportToExcel` | lang_graph/chat_bot/multi_agent/tools.py:42-65 | the export succeeds exactly for a list or data frame whose write does not fail, writing those rows to the given file and sheet; any other type reports the "unsupported format" message; a write error is reported; nothing raises |
| `AgentTools.ExcelTool` | lang_graph/chat_bot/multi_agent/tools.py:32-39 | exports to "agent_excel.xlsx", sheet "Sheet1", under the same success condition |
| `AgentTools.ReportLine` | lang_graph/chat_bot/multi_agent/tools.py:63-65 | the printed line starts with the success words exactly for an export, then names the file; a failure line gives the failure words, then the reason |
| `ChatWithTool.RouteTools` | lang_graph/chat_bot/chat_with_tool.py:48-74 | fails exactly when there is no message to inspect (`IndexError` for an empty list, `ValueError` for a dictionary without messages); "tools" exactly when the last message has a non-empty `tool_calls`, "__end__" otherwise |
| `ChatWithTool.RouteToolsWithoutAttribute` | lang_graph/chat_bot/chat_with_tool.py:72-74 | a last message without `tool_calls` ends the turn |
| `ChatWithTool.RouteToolsSameForListAndDict` | lang_graph/chat_bot/chat_with_tool.py:62-66 | a message list and a state dictionary holding it are routed alike |
| `ChatWithTool.StartTurn` | lang_graph/chat_bot/chat_with_tool.py:117 | a turn enters `chatbot` (line 91) with the earlier history kept and the user's line appended as a human message |
| `ChatWithTool.ChatbotEdge` | lang_graph/chat_bot/chat_with_tool.py:78-85 | "tools" leads to the `tools` node, "__end__" ends the turn |
| `ChatWithTool.Step` | lang_graph/chat_bot/chat_with_tool.py:35-36 | the chatbot appends its answer and never fails nor stays (`route_tools` always finds the answer); the tool node appends its messages and returns to the chatbot |
| `ChatWithTool.RunAlternates` | lang_graph/chat_bot/chat_with_tool.py:78-88 | given that the model and the tool node return, a turn never fails, alternates `chatbot` and `tools`, and ends only right after `chatbot` |
| `ChatWithTool.RunAppendOnly` | lang_graph/chat_bot/chat_with_tool.py:35-36 | a turn only appends to the history |
| `ChatWithTool.TurnShape` | lang_graph/chat_bot/chat_with_tool.py:88-91 | a turn from START starts at `chatbot`, alternates, never fails in `route_tools`, ends after `chatbot`, and keeps the history and the user's line in front |
| `ChatWithTool.Lower` | lang_graph/chat_bot/chat_with_tool.py:111 | lower-casing keeps the length and maps each character through ASCII `lower` |
| `ChatWithTool.IsQuitCommand` | lang_graph/chat_bot/chat_with_tool.py:111 | only inputs of one or four characters quit |
| `ChatWithTool.QuitCommands` | lang_graph/chat_bot/chat_with_tool.py:111 | the loop stops exactly on "quit", "exit" or "q" in any mix of letter cases, and on nothing else |
| `Reflection.Router` | lang_graph/chat_bot/reflection/article/client.py:44-48 | END exactly when the history has more than `MaxRound` (6) messages, "teacher" otherwise |
| `Reflection.Flip` | lang_graph/chat_bot/reflection/article/client.py:24 | an "ai" message becomes human and a "human" message AI, keeping the text; any other type is a missing key |
| `Reflection.FlipAll` | lang_graph/chat_bot/reflection/article/client.py:27-29 | flipping a list succeeds exactly when every message is "ai" or "human", keeps the length, and flips each message in place |
| `Reflection.SwapRoles` | lang_graph/chat_bot/reflection/article/client.py:23-29 | an empty history raises `IndexError`; otherwise it succeeds exactly when all later messages are "ai" or "human", keeps the first message and swaps the role of every later one; a failure on a non-empty history is the `KeyError` of some later message's type |
| `Reflection.Start` | lang_graph/chat_bot/reflection/article/client.py:51-65 | the loop enters `writer` with the request as the only message, so the writer's first answer goes to the teacher |
| `Reflection.SwapTwice` | lang_graph/chat_bot/reflection/article/client.py:24-29 | swapping twice succeeds and restores every message's type and text |
| `Reflection.TeacherNode` | lang_graph/chat_bot/reflection/article/client.py:23-35 | fails exactly when the swap fails, with its error; otherwise returns one human message with the teacher's text |
| `Reflection.Step` | lang_graph/chat_bot/reflection/article/client.py:51-53 | the writer appends its answer and goes to the teacher unless the history exceeds `MaxRound`; the teacher appends its answer as a human message and returns to the writer |
| `Reflection.RunFromWriter` | lang_graph/chat_bot/reflection/article/client.py:44-53 | from the writer, the loop appends a fixed number of messages, alternating writer and teacher, and ends right after a writer step |
| `Reflection.RunEndsAtEight` | lang_graph/chat_bot/reflection/article/client.py:11 | from the single request the loop ends with exactly 8 messages: the request, four writer answers and three teacher answers, in order; the nodes run writer, teacher, ... writer |
| `Rag.FormatDocs` | rag/rag.py:60-61 | no documents give "", one gives its text unchanged, n documents give their texts plus 2(n-1) separator characters |
| `Rag.FormatDocsLayout` | rag/rag.py:61 | the k-th text appears verbatim at its offset, followed by "\n\n" unless it is the last |
| `Rag.FormatDocsAppend` | rag/rag.py:61 | one more document extends the context by "\n\n" and its text |
| `RagDemo.FormatDocs` | rag/rag_demo.py:53-54 | the same length and edge cases as in rag.py |
| `RagDemo.SameAsRag` | rag/rag_demo.py:53-54 | both scripts build the same context from the same documents |
| `RagDemo.FormatDocsLayout` | rag/rag_demo.py:54 | the k-th text appears verbatim at its offset, followed by "\n\n" unless it is the last |

## Left out

- The language model calls (`agent.invoke`, `llm_with_tools.invoke`, `writer.invoke`, `teacher.invoke`), the search tool, and what they answer. Their answers are inputs of `Step` and `Run`.
- The prompts built by `create_agent`, and `bind_tools`. They only shape what the model is asked.
- LangGraph's engine internals: `add_messages` ids and updates, checkpointing with `MemorySaver`, streaming, and `pretty_print`. Merging is taken as appending, which is what both reducers do for fresh messages.
- `ToolNode` and `BasicToolNode`: how tool calls are executed. Their output is an input. `lang_graph/chat_bot/tools/tools.py` is not part of this model.
- The console loops (`input`, `print`), `save_img`, and `draw_mermaid_png`. These are I/O.
- `PythonREPL.run`: its result or exception is the input `ReplOutcome`.
- The pandas workbook write, including the header layout. Only whether it raised is an input; `ReportLine` gives the printed text.
- `WebBaseLoader`, the text splitter, the Chroma store and the retriever chain in the RAG scripts. These are I/O and foreign code; only `format_docs` is modelled.
- `simple_chat_bot.py`, `multi_chain_codegen.py` and `reflection/article/agents.py`. They are context only.
- ChartGen.Run: the recursion limit counts node executions, not LangGraph supersteps.
- chat_with_tool and the reflection loop set no recursion limit of their own. Their runs are bounded only by the number of replies given, so LangGraph's default limit of 25 is not modelled.
- ChatWithTool.RouteTools: the `ValueError` message keeps only its fixed prefix, without the rendering of the state.
- ChatWithTool.Lower: lower-cases only A-Z, not the rest of Unicode.
- Reflection.RunEndsAtEight: assumes the writer's model answers with "ai" or "human" messages, as a chat model does. Another type makes the next teacher step raise `KeyError`, which `Reflection.SwapRoles` states.
- ChatWithTool.RunAlternates: "never fails" is about `route_tools` only. The tool node's reply is a list of messages, so a failing `BasicToolNode` (an unknown tool name, or an exception it does not catch) is not expressed.

## Findings

| source | as written | input that shows it | evidently intended | confidence | as-written member | corrected member |
|---|---|---|---|---|---|---|
| lang_graph/chat_bot/multi_agent/agents_util.py:64 | `tool_calls[0]` is read after line 59 has found `tool_calls` empty | a last AI message with `tool_calls == []` whose text lacks "FINAL JOB" | answer "continue", as the comment at line 67 and the `Literal` at line 56 say | high (not executed) | `AgentsUtil.RouterFailsInsteadOfContinuing` | `AgentsUtil.RouterAsDocumented` |

`ChartGen.DocumentedContinueReachesChart` runs both routers on that input from START. The run with `router` as written fails with `IndexError`; the run with the documented router reaches `chart_node`. The graph lemmas that describe the scripts as they run (`ChartGen.RunFromStart` and those it uses) keep `router` as written.
