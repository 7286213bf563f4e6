/**
 * lang_graph/chat_bot/reflection/article/client.py: a writer and a teacher
 * take turns on one article. The writer answers the history as it is; the
 * teacher sees the history with the roles of everything after the request
 * swapped, so that the writer's drafts reach it as the user's words. The
 * round guard ends the loop once the history is longer than `MaxRound`.
 */
module Reflection {
  import opened Common

  const MaxRound: nat := 6

  datatype Node = Writer | Teacher

  datatype Target = GotoTeacher | End

  /** `router(state)`: the end once there are more than `MaxRound` messages. */
  function Router(messages: seq<Message>): (t: Target)
    ensures t == End <==> |messages| > MaxRound
  {
    if |messages| > MaxRound then End else GotoTeacher
  }

  function FlipType(t: MessageType): MessageType
    requires t == Ai || t == Human
  {
    if t == Ai then Human else Ai
  }

  /**
   * `msg_cls[msg.type](content=msg.content)`: an "ai" message becomes a
   * human one and a "human" message an AI one, with the same text and
   * nothing else; any other type is a missing key of `msg_cls`.
   */
  function Flip(m: Message): (r: Result<Message>)
    ensures r.Ok? <==> m.kind == Ai || m.kind == Human
    ensures r.Ok? ==> r.value.kind == FlipType(m.kind) && r.value.content == m.content
    ensures r.Err? ==> r.error == KeyError(TypeName(m.kind))
  {
    match m.kind
    case Ai => Ok(HumanMessage(m.content))
    case Human => Ok(AiMessage(m.content))
    case _ => Err(KeyError(TypeName(m.kind)))
  }

  /** Whether every message can be flipped (is "ai" or "human"). */
  ghost predicate AllChatTyped(ms: seq<Message>)
  {
    forall i :: 0 <= i < |ms| ==> ms[i].kind == Ai || ms[i].kind == Human
  }

  /**
   * The list comprehension over `state["messages"][1:]`: each message is
   * flipped in order; the first one that cannot be flipped raises.
   */
  function FlipAll(ms: seq<Message>): (r: Result<seq<Message>>)
    ensures r.Ok? <==> AllChatTyped(ms)
    ensures r.Ok? ==> |r.value| == |ms|
    ensures r.Ok? ==> forall i :: 0 <= i < |ms| ==>
      r.value[i].kind == FlipType(ms[i].kind) && r.value[i].content == ms[i].content
    ensures r.Err? ==> exists i :: 0 <= i < |ms| && r.error == KeyError(TypeName(ms[i].kind))
  {
    if |ms| == 0 then Ok([])
    else
      match Flip(ms[0])
      case Err(e) => Err(e)
      case Ok(first) =>
        match FlipAll(ms[1..])
        case Err(e) => Err(e)
        case Ok(rest) => Ok([first] + rest)
  }

  /**
   * The `content` list `teacher_node` sends to the teacher: the request
   * (first message) unchanged, every later message with its role swapped.
   * An empty history raises `IndexError`; a later message typed neither
   * "ai" nor "human" raises `KeyError`.
   */
  function SwapRoles(messages: seq<Message>): (r: Result<seq<Message>>)
    ensures |messages| == 0 ==> r == Err(IndexError)
    ensures r.Ok? <==> |messages| > 0 && AllChatTyped(messages[1..])
    ensures |messages| > 0 && r.Err? ==>
      exists i :: 1 <= i < |messages| && r.error == KeyError(TypeName(messages[i].kind))
    ensures r.Ok? ==> |r.value| == |messages| && r.value[0] == messages[0]
    ensures r.Ok? ==> forall i :: 1 <= i < |messages| ==>
      r.value[i].kind == FlipType(messages[i].kind) && r.value[i].content == messages[i].content
  {
    if |messages| == 0 then Err(IndexError)
    else
      match FlipAll(messages[1..])
      case Err(e) => Err(e)
      case Ok(rest) => Ok([messages[0]] + rest)
  }

  /** What a message is once roles are forgotten beyond "ai" and "human": its type and text. */
  function Shape(m: Message): (MessageType, string)
  {
    (m.kind, m.content)
  }

  function Shapes(ms: seq<Message>): (r: seq<(MessageType, string)>)
    ensures |r| == |ms|
    ensures forall i :: 0 <= i < |ms| ==> r[i] == Shape(ms[i])
  {
    if |ms| == 0 then [] else [Shape(ms[0])] + Shapes(ms[1..])
  }

  /**
   * Swapping twice gives back every type and text: the second swap
   * succeeds and restores what the first one flipped.
   */
  lemma SwapTwice(messages: seq<Message>)
    requires SwapRoles(messages).Ok?
    ensures SwapRoles(SwapRoles(messages).value).Ok?
    ensures Shapes(SwapRoles(SwapRoles(messages).value).value) == Shapes(messages)
  {
    var once := SwapRoles(messages).value;
    assert AllChatTyped(once[1..]) by {
      forall i | 0 <= i < |once[1..]| ensures once[1..][i].kind == Ai || once[1..][i].kind == Human {
        assert once[1..][i] == once[i + 1];
      }
    }
    var twice := SwapRoles(once).value;
    assert Shapes(twice) == Shapes(messages);
  }

  /**
   * `teacher_node`: the teacher is asked about the swapped history and its
   * answer comes back as one human message with the answer's text. Fails
   * exactly when the swap fails.
   */
  function TeacherNode(messages: seq<Message>, answer: Message): (r: Result<Message>)
    ensures r.Ok? <==> SwapRoles(messages).Ok?
    ensures r.Err? ==> r.error == SwapRoles(messages).error
    ensures r.Ok? ==> r.value.kind == Human && r.value.content == answer.content
  {
    match SwapRoles(messages)
    case Err(e) => Err(e)
    case Ok(_) => Ok(HumanMessage(answer.content))
  }

  datatype Position = At(node: Node) | Ended | Failed(error: PyError)

  datatype Config = Config(messages: seq<Message>, pos: Position)

  /** `START -> writer` with the user's request as the only message. */
  function Start(request: Message): (c: Config)
    ensures c.pos == At(Writer) && c.messages == [request]
    ensures forall answer: Message :: Router(c.messages + [answer]) == GotoTeacher
  {
    Config([request], At(Writer))
  }

  /**
   * Runs one node with the model's `answer`: the writer's answer is
   * appended as it is, then `router` decides; the teacher's answer is
   * appended as a human message, then the edge leads back to the writer.
   */
  function Step(c: Config, answer: Message): (r: Config)
    requires c.pos.At?
    ensures c.pos.node == Writer ==> r.messages == c.messages + [answer]
    ensures c.pos.node == Writer ==> r.pos == (if |r.messages| > MaxRound then Ended else At(Teacher))
    ensures c.pos.node == Teacher ==>
      r == if SwapRoles(c.messages).Ok?
           then Config(c.messages + [HumanMessage(answer.content)], At(Writer))
           else Config(c.messages, Failed(SwapRoles(c.messages).error))
  {
    match c.pos.node
    case Writer =>
      var ms := c.messages + [answer];
      (match Router(ms)
       case End => Config(ms, Ended)
       case GotoTeacher => Config(ms, At(Teacher)))
    case Teacher =>
      match TeacherNode(c.messages, answer)
      case Err(e) => Config(c.messages, Failed(e))
      case Ok(m) => Config(c.messages + [m], At(Writer))
  }

  /** Runs the loop from `c`, one model answer per node execution. */
  function Run(c: Config, answers: seq<Message>): (Config, seq<Node>)
    decreases |answers|
  {
    if !c.pos.At? || |answers| == 0 then (c, [])
    else
      var (last, trace) := Run(Step(c, answers[0]), answers[1..]);
      (last, [c.pos.node] + trace)
  }

  /**
   * What the loop appends for a list of answers that alternate writer,
   * teacher, writer, ...: writer answers verbatim, teacher answers as
   * human messages carrying their text.
   */
  function Transcript(answers: seq<Message>): (r: seq<Message>)
    ensures |r| == |answers|
  {
    if |answers| == 0 then []
    else if |answers| == 1 then [answers[0]]
    else [answers[0], HumanMessage(answers[1].content)] + Transcript(answers[2..])
  }

  /** The writer's chat model answers with "ai" (or "human") messages. */
  ghost predicate WriterAnswersChat(answers: seq<Message>)
  {
    forall i :: 0 <= i < |answers| && i % 2 == 0 ==> answers[i].kind == Ai || answers[i].kind == Human
  }

  /** How many messages there are when the loop ends, from the writer with `n` of them. */
  function FinalCount(n: nat): (r: nat)
    ensures r > n
    decreases MaxRound + 1 - n
  {
    if n + 1 > MaxRound then n + 1 else FinalCount(n + 2)
  }

  function Alternation(k: nat): seq<Node>
  {
    if k == 0 then [] else [Writer] + (if k == 1 then [] else [Teacher] + Alternation(k - 2))
  }

  /**
   * From the writer, with a history whose later messages are all "ai" or
   * "human", the loop appends exactly `FinalCount(n) - n` messages (the
   * transcript of that many answers), alternating writer and teacher, and
   * ends right after a writer step.
   */
  lemma {:induction false} RunFromWriter(c: Config, answers: seq<Message>)
    requires c.pos == At(Writer) && |c.messages| > 0 && AllChatTyped(c.messages[1..])
    requires WriterAnswersChat(answers)
    requires |answers| >= FinalCount(|c.messages|) - |c.messages|
    ensures FinalCount(|c.messages|) > |c.messages|
    ensures var k := FinalCount(|c.messages|) - |c.messages|;
      && Run(c, answers).0 == Config(c.messages + Transcript(answers[..k]), Ended)
      && Run(c, answers).1 == Alternation(k)
    decreases MaxRound + 1 - |c.messages|
  {
    var n := |c.messages|;
    var k := FinalCount(n) - n;
    if n + 1 > MaxRound {
      assert k == 1 && answers[..1] == [answers[0]];
      LastWriterStep(c, answers);
    } else {
      var t := WriterThenTeacher(c, answers[0], answers[1]);
      EvenAnswersShift(answers);
      assert |t.messages| == n + 2;
      assert FinalCount(n) == FinalCount(n + 2);
      var k2 := FinalCount(|t.messages|) - |t.messages|;
      assert k2 == k - 2;
      RunFromWriter(t, answers[2..]);
      assert Run(t, answers[2..]).0 == Config(t.messages + Transcript(answers[2..][..k2]), Ended);
      ResumeAfterTwoSteps(c, answers, t, k);
    }
  }

  /** Joins a writer and a teacher step to the run that follows them. */
  lemma ResumeAfterTwoSteps(c: Config, answers: seq<Message>, t: Config, k: nat)
    requires 2 <= k <= |answers|
    requires c.pos == At(Writer) && Step(c, answers[0]).pos == At(Teacher)
    requires t == Step(Step(c, answers[0]), answers[1])
    requires t.messages == c.messages + [answers[0], HumanMessage(answers[1].content)]
    requires Run(t, answers[2..]).0 == Config(t.messages + Transcript(answers[2..][..k - 2]), Ended)
    requires Run(t, answers[2..]).1 == Alternation(k - 2)
    ensures Run(c, answers).0 == Config(c.messages + Transcript(answers[..k]), Ended)
    ensures Run(c, answers).1 == Alternation(k)
  {
    RunTwoSteps(c, answers);
    var pair := [answers[0], HumanMessage(answers[1].content)];
    var tail := Transcript(answers[2..][..k - 2]);
    assert answers[2..][..k - 2] == answers[..k][2..];
    assert Transcript(answers[..k]) == pair + tail;
    assert t.messages + tail == c.messages + (pair + tail);
  }

  /** A writer step that ends the loop. */
  lemma LastWriterStep(c: Config, answers: seq<Message>)
    requires c.pos == At(Writer) && |answers| > 0 && |c.messages| + 1 > MaxRound
    ensures Run(c, answers).0 == Config(c.messages + [answers[0]], Ended)
    ensures Run(c, answers).1 == [Writer]
  {
    var w := Step(c, answers[0]);
    assert w == Config(c.messages + [answers[0]], Ended);
    assert Run(w, answers[1..]) == (w, []);
  }

  /** A writer step that does not end the loop, then a teacher step. */
  lemma WriterThenTeacher(c: Config, a0: Message, a1: Message) returns (t: Config)
    requires c.pos == At(Writer) && |c.messages| > 0 && AllChatTyped(c.messages[1..])
    requires a0.kind == Ai || a0.kind == Human
    requires |c.messages| + 1 <= MaxRound
    ensures t == Step(Step(c, a0), a1)
    ensures t == Config(c.messages + [a0, HumanMessage(a1.content)], At(Writer))
    ensures |t.messages| > 0 && AllChatTyped(t.messages[1..])
  {
    var w := Step(c, a0);
    assert w == Config(c.messages + [a0], At(Teacher));
    assert w.messages[1..] == c.messages[1..] + [a0];
    assert SwapRoles(w.messages).Ok?;
    t := Step(w, a1);
    assert t.messages == c.messages + [a0, HumanMessage(a1.content)];
    assert t.messages[1..] == w.messages[1..] + [HumanMessage(a1.content)];
  }

  lemma EvenAnswersShift(answers: seq<Message>)
    requires |answers| >= 2 && WriterAnswersChat(answers)
    ensures WriterAnswersChat(answers[2..])
    ensures answers[0].kind == Ai || answers[0].kind == Human
  {
    forall i | 0 <= i < |answers[2..]| && i % 2 == 0
      ensures answers[2..][i].kind == Ai || answers[2..][i].kind == Human
    {
      assert answers[2..][i] == answers[i + 2];
    }
  }

  lemma RunTwoSteps(c: Config, answers: seq<Message>)
    requires c.pos.At? && |answers| >= 2 && Step(c, answers[0]).pos.At?
    ensures Run(c, answers).0 == Run(Step(Step(c, answers[0]), answers[1]), answers[2..]).0
    ensures Run(c, answers).1 ==
      [c.pos.node, Step(c, answers[0]).pos.node] + Run(Step(Step(c, answers[0]), answers[1]), answers[2..]).1
  {
    assert answers[1..][1..] == answers[2..];
  }

  /**
   * From the single request, the loop ends with exactly eight messages: the
   * request, then four writer answers alternating with three teacher
   * answers. The writer runs four times and the teacher three times, and
   * the last step is the writer's.
   */
  lemma RunEndsAtEight(request: Message, answers: seq<Message>)
    requires WriterAnswersChat(answers) && |answers| >= 7
    ensures Run(Start(request), answers).0 == Config([request] + Transcript(answers[..7]), Ended)
    ensures |Run(Start(request), answers).0.messages| == 8
    ensures Run(Start(request), answers).1 == [Writer, Teacher, Writer, Teacher, Writer, Teacher, Writer]
  {
    assert FinalCount(1) == 8;
    RunFromWriter(Start(request), answers);
    assert Alternation(7) == [Writer, Teacher, Writer, Teacher, Writer, Teacher, Writer];
    assert |Transcript(answers[..7])| == 7;
  }
}
