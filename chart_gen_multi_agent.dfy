/**
 * lang_graph/chat_bot/multi_agent/chart_gen_multi_agent.py: the graph of the
 * search / chart / excel agents and their shared tool node. The engine runs
 * one node at a time: the node's update is merged into the state and the
 * node's outgoing edge picks the next node. What the language model and the
 * tools answer is not computed here; a run is given those answers.
 */
module ChartGen {
  import opened Common
  import opened AgentsUtil

  datatype Node = SearchNode | ChartNode | ExcelNode | ToolNode

  function NodeName(n: Node): string
  {
    match n
    case SearchNode => "search_node"
    case ChartNode => "chart_node"
    case ExcelNode => "excel_node"
    case ToolNode => "tool_node"
  }

  /** Where an edge leads: another node, or the end of the run. */
  datatype Target = Goto(node: Node) | End

  /**
   * The conditional edges of the three agent nodes (each consults `router`).
   * A router answer the node's table does not list cannot be followed.
   */
  function AgentEdge(from: Node, route: Route): (r: Result<Target>)
    requires from != ToolNode
    ensures route == CallTool ==> r == Ok(Goto(ToolNode))
    ensures route == Finish ==> r == Ok(End)
    ensures route == Continue ==> r == Ok(Goto(if from == SearchNode then ChartNode else SearchNode))
    ensures route in {ExcelTool, ChartTool} ==> r == Err(UnknownBranch(RouteName(route)))
  {
    match route
    case CallTool => Ok(Goto(ToolNode))
    case Finish => Ok(End)
    case Continue =>
      if from == SearchNode then Ok(Goto(ChartNode)) else Ok(Goto(SearchNode))
    case _ => Err(UnknownBranch(RouteName(route)))
  }

  /**
   * The conditional edge of `tool_node`: back to the agent named in
   * `sender`. A state without `sender` raises `KeyError`; a sender outside
   * the three agent names has no entry.
   */
  function ToolEdge(sender: Option<string>): (r: Result<Node>)
    ensures r.Ok? <==> sender.Some? && sender.value in {"search_node", "chart_node", "excel_node"}
    ensures r.Ok? ==> NodeName(r.value) == sender.value && r.value != ToolNode
    ensures sender.None? ==> r == Err(KeyError("sender"))
  {
    match sender
    case None => Err(KeyError("sender"))
    case Some(s) =>
      if s == "search_node" then Ok(SearchNode)
      else if s == "chart_node" then Ok(ChartNode)
      else if s == "excel_node" then Ok(ExcelNode)
      else Err(UnknownBranch(s))
  }

  /** `{"recursion_limit": 10}`: at most ten node executions per run. */
  const RecursionLimit: nat := 10

  datatype Position = At(node: Node) | Ended | Failed(error: PyError)

  datatype Config = Config(state: AgentState, pos: Position)

  /**
   * What the outside world answers at one step: the agent's reply when an
   * agent node runs, the tool messages when the tool node runs.
   */
  datatype Reply = Reply(agentAnswer: Message, toolResults: seq<Message>)

  /** `START -> search_node`, with the user's request as the only message. */
  function Start(request: Message): (c: Config)
    ensures c.pos == At(SearchNode) && c.state.messages == [request]
    ensures Reachable(c) && ExcelOut(c)
  {
    Config(AgentState([request], None), At(SearchNode))
  }

  function Follow(state: AgentState, t: Result<Target>): Config
  {
    match t
    case Err(e) => Config(state, Failed(e))
    case Ok(End) => Config(state, Ended)
    case Ok(Goto(n)) => Config(state, At(n))
  }

  /**
   * Runs the current node once and follows its outgoing edge; the agent
   * nodes' edges consult the router of version `v`.
   */
  function Step(c: Config, reply: Reply, v: Version): (r: Config)
    requires c.pos.At?
    ensures c.pos.node == ToolNode ==>
      r.state == Merge(c.state, Update(reply.toolResults, None))
    ensures c.pos.node != ToolNode ==>
      r.state == Merge(c.state, CreateNode(reply.agentAnswer, NodeName(c.pos.node)))
  {
    var n := c.pos.node;
    if n == ToolNode then
      var s := Merge(c.state, Update(reply.toolResults, None));
      match ToolEdge(s.sender)
      case Err(e) => Config(s, Failed(e))
      case Ok(next) => Config(s, At(next))
    else
      var s := Merge(c.state, CreateNode(reply.agentAnswer, NodeName(n)));
      match RouterOf(v, s.messages)
      case Err(e) => Config(s, Failed(e))
      case Ok(route) => Follow(s, AgentEdge(n, route))
  }

  /**
   * Runs the graph from `c`, one reply per node execution, until the run
   * ends, fails, hits the recursion limit, or the replies run out. Returns
   * the last configuration and the nodes executed, in order. `executed`
   * counts the node executions already done.
   */
  function Run(c: Config, replies: seq<Reply>, executed: nat, v: Version): (r: (Config, seq<Node>))
    ensures executed <= RecursionLimit ==> |r.1| <= RecursionLimit - executed
    ensures executed >= RecursionLimit && c.pos.At? ==> r.0.pos == Failed(GraphRecursionError)
    decreases |replies|
  {
    if !c.pos.At? then (c, [])
    else if executed >= RecursionLimit then (Config(c.state, Failed(GraphRecursionError)), [])
    else if |replies| == 0 then (c, [])
    else
      var (last, trace) := Run(Step(c, replies[0], v), replies[1..], executed + 1, v);
      (last, [c.pos.node] + trace)
  }

  /** One step of a run that goes on: the current node runs, then the rest of the run. */
  lemma RunUnfold(c: Config, replies: seq<Reply>, executed: nat, v: Version)
    requires c.pos.At? && executed < RecursionLimit && |replies| > 0
    ensures Run(c, replies, executed, v).0 == Run(Step(c, replies[0], v), replies[1..], executed + 1, v).0
    ensures Run(c, replies, executed, v).1 ==
      [c.pos.node] + Run(Step(c, replies[0], v), replies[1..], executed + 1, v).1
  {
  }

  // ---------------------------------------------------------------------
  // The edge structure: how excel_node and chart_node could be entered.

  /**
   * `excel_node`'s only incoming edge is the tool node's, taken when the
   * sender is "excel_node"; this holds whichever router the graph consults.
   */
  lemma ExcelEnteredOnlyFromTool(c: Config, reply: Reply, v: Version)
    requires c.pos.At?
    requires Step(c, reply, v).pos == At(ExcelNode)
    ensures c.pos == At(ToolNode) && c.state.sender == Some("excel_node")
  {
  }

  /** Only `excel_node` itself makes "excel_node" the sender. */
  lemma ExcelSenderOnlyFromExcel(c: Config, reply: Reply, v: Version)
    requires c.pos.At?
    requires Step(c, reply, v).state.sender == Some("excel_node")
    ensures c.pos == At(ExcelNode) || c.state.sender == Some("excel_node")
  {
  }

  /**
   * With `router` as written, `chart_node` is entered only from the tool
   * node with sender "chart_node": the `"continue"` edge from `search_node`
   * is never taken.
   */
  lemma ChartEnteredOnlyFromTool(c: Config, reply: Reply)
    requires c.pos.At?
    requires Step(c, reply, AsWritten).pos == At(ChartNode)
    ensures c.pos == At(ToolNode) && c.state.sender == Some("chart_node")
  {
    RouterNeverContinues(Merge(c.state, CreateNode(reply.agentAnswer, NodeName(c.pos.node))).messages);
  }

  // ---------------------------------------------------------------------
  // Runs from START with `router` as written.

  /**
   * What holds of every configuration a run from START reaches: the run is
   * at `search_node`, or at `tool_node` having come from `search_node`, or
   * it is over.
   */
  ghost predicate Reachable(c: Config)
  {
    c.pos.At? ==>
      c.pos.node == SearchNode ||
      (c.pos.node == ToolNode && c.state.sender == Some("search_node"))
  }

  function Other(n: Node): Node
  {
    if n == SearchNode then ToolNode else SearchNode
  }

  lemma {:induction false} StepKeepsReachable(c: Config, reply: Reply)
    requires c.pos.At? && Reachable(c)
    ensures Reachable(Step(c, reply, AsWritten))
    ensures Step(c, reply, AsWritten).pos.At? ==> Step(c, reply, AsWritten).pos.node == Other(c.pos.node)
    ensures Step(c, reply, AsWritten).pos == Ended ==> c.pos.node == SearchNode
    ensures Step(c, reply, AsWritten).state.messages[..|c.state.messages|] == c.state.messages
  {
    if c.pos.node == SearchNode {
      var s := Merge(c.state, CreateNode(reply.agentAnswer, "search_node"));
      RouterNeverContinues(s.messages);
      assert s.sender == Some("search_node");
    }
  }

  /** `trace` alternates `first`, `Other(first)`, `first`, ... */
  ghost predicate Alternates(trace: seq<Node>, first: Node)
  {
    |trace| == 0 || (trace[0] == first && Alternates(trace[1..], Other(first)))
  }

  lemma {:induction false} AlternatesAt(trace: seq<Node>, first: Node)
    requires Alternates(trace, first) && first in {SearchNode, ToolNode}
    ensures forall i :: 0 <= i < |trace| ==> trace[i] == if i % 2 == 0 then first else Other(first)
  {
    if |trace| > 0 {
      AlternatesAt(trace[1..], Other(first));
      forall i | 0 < i < |trace|
        ensures trace[i] == if i % 2 == 0 then first else Other(first)
      {
        assert trace[i] == trace[1..][i - 1];
      }
    }
  }

  /**
   * From a reachable configuration, the nodes executed alternate between
   * the current node and its partner, and the run stops in a reachable
   * configuration.
   */
  lemma {:induction false} RunAlternates(c: Config, replies: seq<Reply>, executed: nat)
    requires Reachable(c)
    ensures Reachable(Run(c, replies, executed, AsWritten).0)
    ensures c.pos.At? ==> Alternates(Run(c, replies, executed, AsWritten).1, c.pos.node)
    ensures !c.pos.At? ==> Run(c, replies, executed, AsWritten).1 == []
    decreases |replies|
  {
    if !c.pos.At? || executed >= RecursionLimit || |replies| == 0 {
    } else {
      var next := Step(c, replies[0], AsWritten);
      StepKeepsReachable(c, replies[0]);
      RunAlternates(next, replies[1..], executed + 1);
      RunUnfold(c, replies, executed, AsWritten);
    }
  }

  /** From a reachable configuration, a run that ends does so right after `search_node`. */
  lemma {:induction false} RunEndsAfterSearch(c: Config, replies: seq<Reply>, executed: nat)
    requires Reachable(c) && c.pos.At?
    requires Run(c, replies, executed, AsWritten).0.pos == Ended
    ensures |Run(c, replies, executed, AsWritten).1| > 0 && Last(Run(c, replies, executed, AsWritten).1) == SearchNode
    decreases |replies|
  {
    var next := Step(c, replies[0], AsWritten);
    StepKeepsReachable(c, replies[0]);
    var rest := Run(next, replies[1..], executed + 1, AsWritten).1;
    assert Run(c, replies, executed, AsWritten).1 == [c.pos.node] + rest;
    if next.pos.At? {
      RunEndsAfterSearch(next, replies[1..], executed + 1);
    } else {
      assert rest == [];
    }
  }

  /** `longer` is `shorter` followed by more messages. */
  ghost predicate Extends(longer: seq<Message>, shorter: seq<Message>)
  {
    |shorter| <= |longer| && longer[..|shorter|] == shorter
  }

  lemma ExtendsTransitive(a: seq<Message>, b: seq<Message>, c: seq<Message>)
    requires Extends(c, b) && Extends(b, a)
    ensures Extends(c, a)
  {
    assert c[..|a|] == c[..|b|][..|a|];
  }

  /** A step appends to the history and keeps what was there. */
  lemma StepAppends(c: Config, reply: Reply, v: Version)
    requires c.pos.At?
    ensures Extends(Step(c, reply, v).state.messages, c.state.messages)
  {
  }

  /** The history only grows, at its end, whichever router the graph consults. */
  lemma {:induction false} RunAppendOnly(c: Config, replies: seq<Reply>, executed: nat, v: Version)
    ensures Extends(Run(c, replies, executed, v).0.state.messages, c.state.messages)
    decreases |replies|
  {
    if !c.pos.At? || executed >= RecursionLimit || |replies| == 0 {
    } else {
      var next := Step(c, replies[0], v);
      StepAppends(c, replies[0], v);
      RunAppendOnly(next, replies[1..], executed + 1, v);
      RunUnfold(c, replies, executed, v);
      ExtendsTransitive(c.state.messages, next.state.messages, Run(next, replies[1..], executed + 1, v).0.state.messages);
    }
  }

  /**
   * Every run from START alternates `search_node` and `tool_node`, starting
   * with `search_node`; it executes at most ten nodes; it never executes
   * `excel_node` or `chart_node` and never stops at either; if it ends, it
   * ends right after `search_node`; and the request stays the first message
   * of the history.
   */
  lemma RunFromStart(request: Message, replies: seq<Reply>)
    ensures var (last, trace) := Run(Start(request), replies, 0, AsWritten);
      && |trace| <= RecursionLimit
      && (forall i :: 0 <= i < |trace| ==> trace[i] == if i % 2 == 0 then SearchNode else ToolNode)
      && ExcelNode !in trace && ChartNode !in trace
      && last.pos != At(ExcelNode) && last.pos != At(ChartNode)
      && (last.pos == Ended ==> |trace| > 0 && Last(trace) == SearchNode)
      && |last.state.messages| > 0 && last.state.messages[0] == request
  {
    var c := Start(request);
    RunAlternates(c, replies, 0);
    AlternatesAt(Run(c, replies, 0, AsWritten).1, SearchNode);
    RunAppendOnly(c, replies, 0, AsWritten);
    var (last, trace) := Run(c, replies, 0, AsWritten);
    if last.pos == Ended {
      RunEndsAfterSearch(c, replies, 0);
    }
    assert last.state.messages[..1] == [request];
    forall i | 0 <= i < |trace| ensures trace[i] != ExcelNode && trace[i] != ChartNode { }
  }

  // ---------------------------------------------------------------------
  // Runs from START with either router.

  /** `excel_node` is neither where the run is nor the sender. */
  ghost predicate ExcelOut(c: Config)
  {
    c.pos != At(ExcelNode) && c.state.sender != Some("excel_node")
  }

  lemma StepKeepsExcelOut(c: Config, reply: Reply, v: Version)
    requires c.pos.At? && ExcelOut(c)
    ensures ExcelOut(Step(c, reply, v))
  {
    var next := Step(c, reply, v);
    if next.pos == At(ExcelNode) {
      ExcelEnteredOnlyFromTool(c, reply, v);
    }
    if next.state.sender == Some("excel_node") {
      ExcelSenderOnlyFromExcel(c, reply, v);
    }
  }

  /**
   * Whichever router the graph consults, a run that starts away from
   * `excel_node` never executes it and never stops at it: no agent edge
   * leads there, and the tool edge does so only for sender "excel_node".
   */
  lemma {:induction false} RunKeepsExcelOut(c: Config, replies: seq<Reply>, executed: nat, v: Version)
    requires ExcelOut(c)
    ensures ExcelOut(Run(c, replies, executed, v).0)
    ensures ExcelNode !in Run(c, replies, executed, v).1
    decreases |replies|
  {
    if !c.pos.At? || executed >= RecursionLimit || |replies| == 0 {
    } else {
      var next := Step(c, replies[0], v);
      StepKeepsExcelOut(c, replies[0], v);
      RunKeepsExcelOut(next, replies[1..], executed + 1, v);
      RunUnfold(c, replies, executed, v);
      assert c.pos.node != ExcelNode;
    }
  }

  /** With either router, a run from START never reaches `excel_node`. */
  lemma ExcelUnreachable(request: Message, replies: seq<Reply>, v: Version)
    ensures ExcelNode !in Run(Start(request), replies, 0, v).1
    ensures Run(Start(request), replies, 0, v).0.pos != At(ExcelNode)
  {
    RunKeepsExcelOut(Start(request), replies, 0, v);
  }

  /**
   * The documented router would make `chart_node` reachable: a first
   * answer without tool calls and without "FINAL JOB" takes `search_node`'s
   * `"continue"` edge to `chart_node`, where `router` as written raises
   * `IndexError` instead.
   */
  lemma DocumentedContinueReachesChart(request: Message, answer: Message)
    requires answer.kind != Tool && (answer.toolCalls.None? || answer.toolCalls == Some([]))
    requires !Contains(answer.content, FinalJob)
    ensures Run(Start(request), [Reply(answer, [])], 0, AsDocumented).0.pos == At(ChartNode)
    ensures Run(Start(request), [Reply(answer, [])], 0, AsDocumented).1 == [SearchNode]
    ensures Run(Start(request), [Reply(answer, [])], 0, AsWritten).0.pos == Failed(IndexError)
  {
    var ms := Merge(Start(request).state, CreateNode(answer, "search_node")).messages;
    assert Last(ms) == CreateNode(answer, "search_node").messages[0];
  }
}
