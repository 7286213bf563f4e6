/**
 * Values shared by every script of the repository: chat messages and their
 * tool calls, the Python exceptions the scripts can raise, and the two string
 * operations they rely on (`sub in s` and `sep.join(parts)`).
 */
module Common {

  datatype Option<+T> = None | Some(value: T)

  /** A computation that either returns a value or raises a Python exception. */
  datatype Result<+T> = Ok(value: T) | Err(error: PyError)

  /** The exceptions the modelled code raises (or lets the graph engine raise). */
  datatype PyError =
    | IndexError                   // `xs[0]` or `xs[-1]` on an empty list
    | AttributeError(attr: string) // reading an attribute the object lacks
    | KeyError(key: string)        // a dictionary lookup of a missing key
    | ValueError(text: string)     // `raise ValueError(...)`
    | UnknownBranch(branch: string)// a router answer the edge table has no entry for
    | GraphRecursionError          // the engine's step budget is exhausted

  /** The `type` tag of a chat message. */
  datatype MessageType = Human | Ai | System | Tool

  function TypeName(t: MessageType): string
  {
    match t
    case Human => "human"
    case Ai => "ai"
    case System => "system"
    case Tool => "tool"
  }

  /** A tool-call request carried by an AI message: `{"name", "args", "id"}`. */
  datatype ToolCall = ToolCall(name: string, args: string, id: string)

  /**
   * A chat message. `toolCalls` is `None` when the message class has no
   * `tool_calls` attribute at all (human, system and tool messages) and
   * `Some(calls)` when it has one (AI messages, possibly with no calls).
   */
  datatype Message = Message(
    kind: MessageType,
    content: string,
    toolCalls: Option<seq<ToolCall>>,
    name: Option<string>)

  function HumanMessage(content: string): Message
  {
    Message(Human, content, None, None)
  }

  function AiMessage(content: string): Message
  {
    Message(Ai, content, Some([]), None)
  }

  function Last<T>(s: seq<T>): T
    requires |s| > 0
  {
    s[|s| - 1]
  }

  // ---------------------------------------------------------------------
  // Substring test: Python's `sub in s` on strings.

  predicate OccursAt(s: string, sub: string, i: int)
  {
    0 <= i && i + |sub| <= |s| && s[i..i + |sub|] == sub
  }

  lemma {:induction false} OccursShift(s: string, sub: string)
    requires |s| > 0
    ensures forall j :: OccursAt(s[1..], sub, j) <==> 0 <= j && OccursAt(s, sub, j + 1)
  {
    forall j ensures OccursAt(s[1..], sub, j) <==> 0 <= j && OccursAt(s, sub, j + 1) {
      if 0 <= j && j + |sub| <= |s| - 1 {
        assert s[1..][j..j + |sub|] == s[j + 1..j + 1 + |sub|];
      }
    }
  }

  /** `sub in s`: true exactly when `sub` occurs somewhere in `s`. */
  function Contains(s: string, sub: string): (r: bool)
    ensures r <==> exists i :: OccursAt(s, sub, i)
    decreases |s|
  {
    if |sub| > |s| then
      false
    else if s[..|sub|] == sub then
      assert OccursAt(s, sub, 0);
      true
    else
      OccursShift(s, sub);
      assert !OccursAt(s, sub, 0);
      assert forall i :: OccursAt(s, sub, i) ==> OccursAt(s[1..], sub, i - 1);
      Contains(s[1..], sub)
  }

  lemma ContainsAt(s: string, sub: string, i: int)
    requires OccursAt(s, sub, i)
    ensures Contains(s, sub)
  {
  }

  // ---------------------------------------------------------------------
  // Separator join: Python's `sep.join(parts)`.

  function Join(parts: seq<string>, sep: string): (r: string)
    ensures |parts| == 0 ==> r == ""
    ensures |parts| == 1 ==> r == parts[0]
    ensures |r| >= SumLengths(parts)
  {
    if |parts| == 0 then ""
    else if |parts| == 1 then parts[0]
    else parts[0] + sep + Join(parts[1..], sep)
  }

  function SumLengths(parts: seq<string>): nat
  {
    if |parts| == 0 then 0 else |parts[0]| + SumLengths(parts[1..])
  }

  /** Where the k-th part starts in `Join(parts, sep)`. */
  function Offset(parts: seq<string>, sep: string, k: nat): nat
    requires k <= |parts|
  {
    if k == 0 then 0 else |parts[0]| + |sep| + Offset(parts[1..], sep, k - 1)
  }

  /** A join of n >= 1 parts is as long as the parts plus n - 1 separators. */
  lemma {:induction false} JoinLength(parts: seq<string>, sep: string)
    requires |parts| >= 1
    ensures |Join(parts, sep)| == SumLengths(parts) + (|parts| - 1) * |sep|
  {
    if |parts| > 1 {
      JoinLength(parts[1..], sep);
      assert SumLengths(parts) == |parts[0]| + SumLengths(parts[1..]);
      assert (|parts| - 1) * |sep| == |sep| + (|parts| - 2) * |sep|;
    }
  }

  /** A slice that lies in the second half of `a + b` is a slice of `b`. */
  lemma SliceOfAppend(a: string, b: string, lo: int, hi: int)
    requires |a| <= lo <= hi <= |a| + |b|
    ensures (a + b)[lo..hi] == b[lo - |a|..hi - |a|]
  {
  }

  /** The k-th part sits verbatim at `Offset(parts, sep, k)`. */
  lemma {:induction false} JoinPartAt(parts: seq<string>, sep: string, k: nat)
    requires k < |parts|
    ensures Offset(parts, sep, k) + |parts[k]| <= |Join(parts, sep)|
    ensures Join(parts, sep)[Offset(parts, sep, k)..Offset(parts, sep, k) + |parts[k]|] == parts[k]
  {
    if |parts| > 1 {
      var j, rest := Join(parts, sep), Join(parts[1..], sep);
      assert j == parts[0] + sep + rest;
      if k == 0 {
        assert j[..|parts[0]|] == parts[0];
      } else {
        JoinPartAt(parts[1..], sep, k - 1);
        var d, o := |parts[0]| + |sep|, Offset(parts[1..], sep, k - 1);
        assert Offset(parts, sep, k) == d + o;
        assert parts[1..][k - 1] == parts[k];
        SliceOfAppend(parts[0] + sep, rest, d + o, d + o + |parts[k]|);
      }
    }
  }

  /** Every part but the last is followed directly by one separator. */
  lemma {:induction false} JoinSeparatorAt(parts: seq<string>, sep: string, k: nat)
    requires k + 1 < |parts|
    ensures Offset(parts, sep, k) + |parts[k]| + |sep| <= |Join(parts, sep)|
    ensures Join(parts, sep)[Offset(parts, sep, k) + |parts[k]|..Offset(parts, sep, k) + |parts[k]| + |sep|] == sep
  {
    var j, rest := Join(parts, sep), Join(parts[1..], sep);
    assert j == parts[0] + sep + rest;
    if k == 0 {
      assert j[|parts[0]|..|parts[0]| + |sep|] == sep;
    } else {
      JoinSeparatorAt(parts[1..], sep, k - 1);
      var d, o := |parts[0]| + |sep|, Offset(parts[1..], sep, k - 1);
      assert Offset(parts, sep, k) == d + o;
      assert parts[1..][k - 1] == parts[k];
      SliceOfAppend(parts[0] + sep, rest, d + o + |parts[k]|, d + o + |parts[k]| + |sep|);
    }
  }

  /** Joining one more part appends a separator and that part. */
  lemma {:induction false} JoinSnoc(parts: seq<string>, sep: string, x: string)
    requires |parts| >= 1
    ensures Join(parts + [x], sep) == Join(parts, sep) + sep + x
  {
    if |parts| == 1 {
      assert (parts + [x])[1..] == [x];
    } else {
      JoinSnoc(parts[1..], sep, x);
      assert (parts + [x])[1..] == parts[1..] + [x];
    }
  }
}
