/** One round of tool dispatch: reading the calls out of a model reply,
    classifying what each tool call did, and the user turn and the effects
    that a round produces. */
module Dispatch {
  import opened Types

  /** Prefix of the message that replaces an exception raised while a tool
      was called or its result read. */
  const FailurePrefix := "Tool execution failed: "

  /** The class and message of the exception raised by `content[0]` on an
      empty list. */
  const IndexErrorKind := "IndexError"
  const IndexErrorMessage := "list index out of range"

  /** The error text for an absorbed exception: the failure prefix, the
      class name of the exception, a colon and a space, then its message. */
  function FailureText(kind: string, message: string): string
  {
    FailurePrefix + kind + ": " + message
  }

  /** `args or {}`: missing arguments become the empty mapping. */
  function NormalizeArgs(args: Option<Args>): Args
  {
    match args
    case None => map[]
    case Some(a) => a
  }

  /** The function calls of a sequence of parts, in order. */
  function CallsIn(parts: seq<Part>): (calls: seq<FunctionCall>)
    ensures |calls| <= |parts|
  {
    if parts == [] then []
    else if parts[0].Call? then [parts[0].call] + CallsIn(parts[1..])
    else CallsIn(parts[1..])
  }

  /** `response.function_calls`: the calls a reply asks for, in the order of its parts. */
  function FunctionCalls(reply: Content): seq<FunctionCall>
  {
    CallsIn(reply.parts)
  }

  /** Every call read out of the parts is one of the parts, and a reply asks
      for no call exactly when none of its parts is a call. */
  lemma {:induction false} CallsInSound(parts: seq<Part>)
    ensures forall c :: c in CallsIn(parts) ==> Call(c) in parts
    ensures CallsIn(parts) == [] <==> forall k :: 0 <= k < |parts| ==> !parts[k].Call?
  {
    if parts != [] {
      CallsInSound(parts[1..]);
      assert forall k :: 1 <= k < |parts| ==> parts[k] == parts[1..][k - 1];
    }
  }

  /** Reading calls out of parts keeps their order: the calls of two
      consecutive groups of parts are those of the first group, then those of
      the second. */
  lemma {:induction false} CallsInAppend(a: seq<Part>, b: seq<Part>)
    ensures CallsIn(a + b) == CallsIn(a) + CallsIn(b)
  {
    if a != [] {
      assert (a + b)[0] == a[0] && (a + b)[1..] == a[1..] + b;
      CallsInAppend(a[1..], b);
    } else {
      assert a + b == b;
    }
  }

  /** The response dict for one outcome of `session.call_tool`: the first
      content text under "error" or "result", or the failure message of the
      exception raised by the call or by reading `content[0]` of an empty
      list. */
  function Classify(outcome: CallToolResult): (response: ToolResponse)
    ensures |response| == 1
    ensures ("result" in response) <==> (outcome.Returned? && !outcome.isError && outcome.content != [])
    ensures ("error" in response) <==> !("result" in response)
    ensures outcome.Returned? && outcome.content != [] ==>
              response.Values == {outcome.content[0]}
    ensures outcome.Returned? && outcome.content == [] ==>
              response["error"] == FailureText(IndexErrorKind, IndexErrorMessage)
    ensures outcome.Raised? ==> response["error"] == FailureText(outcome.kind, outcome.message)
  {
    match outcome
    case Raised(kind, message) => map["error" := FailureText(kind, message)]
    case Returned(isError, content) =>
      if content == [] then map["error" := FailureText(IndexErrorKind, IndexErrorMessage)]
      else if isError then map["error" := content[0]]
      else map["result" := content[0]]
  }

  /** The function response part for the call at position `position` of
      round `round`: it names the called tool and holds the one-key
      classification of what the session did with the call. */
  function Respond(call: FunctionCall, session: ToolSession, round: nat, position: nat): (part: Part)
    ensures part.FunctionResponse? && part.name == call.name && |part.response| == 1
  {
    var args := NormalizeArgs(call.args);
    FunctionResponse(call.name, Classify(session(round, position, call.name, args)))
  }

  /** The function response parts of one batch of calls: one per call, in
      the order of the calls. */
  function Responses(calls: seq<FunctionCall>, session: ToolSession, round: nat): (parts: seq<Part>)
    ensures |parts| == |calls|
  {
    seq(|calls|, i requires 0 <= i < |calls| => Respond(calls[i], session, round, i))
  }

  /** The user turn appended after a batch of calls. */
  function ToolTurn(calls: seq<FunctionCall>, session: ToolSession, round: nat): (turn: Content)
    ensures turn.role == User
    ensures |turn.parts| == |calls|
  {
    Content(User, Responses(calls, session, round))
  }

  /** The effects of dispatching one batch of calls: for every call, in
      order, the info notice and then the tool call, both with the normalised
      arguments. */
  function RoundTrace(calls: seq<FunctionCall>): (trace: seq<Event>)
    ensures |trace| == 2 * |calls|
  {
    seq(2 * |calls|, j requires 0 <= j < 2 * |calls| =>
      var call := calls[j / 2];
      if j % 2 == 0 then Info(call.name, NormalizeArgs(call.args)) else ToolCall(call.name, NormalizeArgs(call.args)))
  }

  /** Dispatching one more call appends its notice and its call to the
      effects of the batch. */
  lemma {:induction false} RoundTraceSnoc(calls: seq<FunctionCall>, call: FunctionCall)
    ensures RoundTrace(calls + [call]) ==
              RoundTrace(calls) + [Info(call.name, NormalizeArgs(call.args)), ToolCall(call.name, NormalizeArgs(call.args))]
  {
    var a := RoundTrace(calls + [call]);
    var b := RoundTrace(calls) + [Info(call.name, NormalizeArgs(call.args)), ToolCall(call.name, NormalizeArgs(call.args))];
    forall j | 0 <= j < |a|
      ensures a[j] == b[j]
    {
      if j < 2 * |calls| {
        assert (calls + [call])[j / 2] == calls[j / 2];
      }
    }
  }

  /** Dispatching two batches one after the other has the effects of
      dispatching their concatenation. */
  lemma {:induction false} RoundTraceAppend(a: seq<FunctionCall>, b: seq<FunctionCall>)
    ensures RoundTrace(a + b) == RoundTrace(a) + RoundTrace(b)
  {
    var left, right := RoundTrace(a + b), RoundTrace(a) + RoundTrace(b);
    forall j | 0 <= j < |left|
      ensures left[j] == right[j]
    {
      if j < 2 * |a| {
        assert (a + b)[j / 2] == a[j / 2];
      } else {
        assert (j - 2 * |a|) / 2 == j / 2 - |a| && (j - 2 * |a|) % 2 == j % 2;
        assert (a + b)[j / 2] == b[j / 2 - |a|];
      }
    }
  }

  /** A round never emits the budget warning. */
  lemma RoundTraceHasNoWarning(calls: seq<FunctionCall>)
    ensures forall e :: e in RoundTrace(calls) ==> !e.Warning?
  {
  }
}
