# Agent loop of the Gemini / MCP Airbnb assistant

This project models `agent_loop` from `app.py` and proves properties of it. `agent_loop` is the tool-calling loop of a
Streamlit assistant: Gemini answers a prompt using the tools of an MCP (Model Context Protocol) Airbnb server. The loop
works in five steps:

1. It lists the tools of the session and turns each into a function declaration. This is the catalogue.
2. It sends the prompt at temperature 0 and appends the model's reply to the transcript.
3. While the latest reply asks for function calls and fewer than five rounds have run, it calls every requested tool
   in order. Before each call it shows an info notice. It turns each outcome into a `{"result": …}` or
   `{"error": …}` response. Exceptions become error responses. It appends one `user` turn holding all the responses,
   then asks the model again at temperature 1.0.
4. If the budget ran out with calls still pending, it shows a warning.
5. It returns the latest reply.

The model client and the tool session are oracles, that is, functions that the caller chooses. A `ModelClient` maps
the index of a request and the request itself to the reply content. A `ToolSession` maps the round, the position of the
call within that round, the tool name and the arguments to an outcome: `Returned(isError, texts)` or
`Raised(kind, message)`. Every call of a run has its own round and position, so any sequence of outcomes a server can
produce over one run, including a call that times out and succeeds when it is retried, is the behaviour of some
session. The properties below hold for every model client and every session.

The project has six files:

- `types.dfy` holds the values exchanged: parts, contents, requests, tool descriptors and the effects (info notice,
  tool call, warning).
- `catalogue.dfy` holds the catalogue comprehension.
- `dispatch.dfy` covers one round:
  - reading the calls out of a reply;
  - classifying an outcome;
  - the user turn of responses;
  - the effects of a round.
- `orchestration.dfy` has two parts:
  - the reference run `Rounds`, the state of the loop after `k` rounds, and `Expected`, the whole run;
  - the imperative loop `AgentLoop` with its inner dispatch loop `DispatchCalls`, each proved equal to that
    reference.
- `properties.dfy` and `scenarios.dfy` hold what the loop guarantees: the bound on rounds, the transcript shape,
  responses matching calls, the request log, notices and the warning, plus two worked runs.

## Model

| member | source | states |
|---|---|---|
| Orchestration.AgentLoop | app.py:35-102 | The returned reply, the transcript, the request log, the effects and the round count equal the reference run `Expected` of the same prompt, tools, model and session |
| Orchestration.DispatchCalls | app.py:64-86 | The inner loop collects exactly the responses `Responses(calls)`, one per call in order. It emits exactly `RoundTrace(calls)`: per call, the info notice, then the tool call |
| Orchestration.Rounds | app.py:36-97 | After `k` rounds the transcript has `2k + 2` turns and the request log `k + 1` requests |
| Orchestration.Expected | app.py:49-102 | The whole run: at most 5 rounds, one request more than rounds, two transcript turns per request. The effects of the rounds come first, and exactly one more effect, the warning, follows exactly when 5 rounds ran and the returned reply still asks for calls |
| Orchestration.TurnsFrom | app.py:60-62 | The round count is never below the rounds already run and never above the budget of 5 |
| Orchestration.TurnsFromStop | app.py:62 | The loop stops at a reply without calls and at the budget |
| Orchestration.NextRound | app.py:61-97 | One round appends the user turn that answers the latest reply's calls and then the reply to a new request at temperature 1.0. That request carries the transcript so far and the same catalogue. The round also appends that request to the log and appends the round's effects |
| Catalogue.Build | app.py:40-47 | One declaration per tool: an empty tool list gives an empty catalogue |
| Catalogue.Declare | app.py:41-45 | The declaration of a tool carries the tool's name |
| Catalogue.BuildAt | app.py:40-47 | Declaration `i` carries tool `i`'s name, description and input schema unchanged |
| Catalogue.BuildRoundTrip | app.py:40-47 | The tool list can be recovered from the catalogue, so nothing of a tool is lost |
| Catalogue.BuildAppend | app.py:40-47 | The catalogue preserves order: the catalogue of a concatenation is the concatenation of the catalogues |
| Catalogue.BuildInjective | app.py:40-47 | Different tool lists give different catalogues |
| Dispatch.CallsInSound | app.py:62 | Every call read from a reply is one of its parts. A reply asks for no call exactly when none of its parts is a function call |
| Dispatch.CallsInAppend | app.py:64 | The calls are read in the order of the parts |
| Dispatch.Classify | app.py:71-80 | Exactly one key, and only three cases. `"result"` holds exactly when the call returned non-empty content without `isError`; otherwise the key is `"error"`. The value is the first content text if there is one. Empty content gives the IndexError failure text. A raised exception gives `"Tool execution failed: <kind>: <message>"` |
| Dispatch.Respond | app.py:67-86 | The response part for one call names the called tool and holds a response with exactly one key, the classification of the session's outcome for that call |
| Dispatch.Responses | app.py:64-86 | One response part per call |
| Dispatch.ToolTurn | app.py:88 | The appended turn has role `user` and one part per call |
| Dispatch.RoundTrace | app.py:64-73 | A round has two effects per call |
| Dispatch.RoundTraceSnoc | app.py:64-73 | One more call appends its notice and then its call, both with the normalised arguments |
| Dispatch.RoundTraceAppend | app.py:64-73 | Dispatching two batches in turn has the effects of dispatching their concatenation |
| Dispatch.RoundTraceHasNoWarning | app.py:64-86 | A round never emits the budget warning |
| LoopProperties.TurnsFromStops | app.py:60-62 | Every round answers a reply that asked for calls. The count stops at a reply without calls or at the budget |
| LoopProperties.RunStops | app.py:49-89 | At most 5 rounds, and one more request than rounds. The transcript has `2 + 2·turns` turns. Every answered reply asked for calls. The returned reply has no calls or the budget is used up |
| LoopProperties.LatestRound | app.py:49-97 | The latest reply closes the transcript. The latest request carries the transcript without that reply, at temperature 0 for the first request and 1.0 after, with the catalogue. The reply is the model's answer to that request |
| LoopProperties.ContentsExtend | app.py:88-97 | A round only appends to the transcript |
| LoopProperties.RequestsExtend | app.py:89-96 | A round only appends to the request log |
| LoopProperties.TraceStep | app.py:63-86 | A round appends to the effects exactly those of dispatching the calls of the reply it answers |
| LoopProperties.ContentsGrow | app.py:36-97 | Nothing appended to the transcript is ever modified: the transcript after `j` rounds is a prefix of the transcript after `k >= j` rounds |
| LoopProperties.RequestsGrow | app.py:49-96 | The request log after `j` rounds is a prefix of the log after `k >= j` rounds |
| LoopProperties.TraceGrows | app.py:60-73 | The effects after `j` rounds are a prefix of those after `k >= j` rounds |
| LoopProperties.PromptFirst | app.py:36 | The transcript always starts with the prompt as a `user` turn |
| LoopProperties.ReplyPosition | app.py:58-97 | Turn `2i + 1` of the transcript is the reply to request `i` |
| LoopProperties.ToolTurnPosition | app.py:64-88 | Turn `2i + 2` is the user turn answering all calls of reply `i`, for every answered reply |
| LoopProperties.TranscriptAlternates | app.py:36-97 | If the model's replies are `model` turns, the transcript alternates: `user` at even positions, `model` at odd ones |
| LoopProperties.ResponsesMatchCalls | app.py:64-88 | The user turn of round `i + 1` has exactly one part per call of reply `i`, in order. Each part is the classified outcome of that call, carries its tool name and has one key |
| LoopProperties.RequestLog | app.py:40-96 | Request `i` carries the transcript prefix of length `2i + 1` and temperature 0 exactly for `i = 0` (1.0 otherwise). It carries the catalogue built from the tool list, and reply `i` answers it |
| LoopProperties.AnnouncedAppend | app.py:64-73 | Announced traces stay announced when joined, unless the second starts with a call |
| LoopProperties.RoundTraceAnnounced | app.py:64-73 | In a round every tool call is immediately preceded by the notice naming the same tool and arguments, and the round starts with a notice |
| LoopProperties.EventsAnnounced | app.py:60-73 | The same holds for the effects of any number of rounds |
| LoopProperties.CallsAnnounced | app.py:64-100 | Throughout a run each tool call is immediately preceded by its info notice |
| LoopProperties.EventsHaveNoWarning | app.py:60-97 | The rounds themselves never warn |
| LoopProperties.WarningOnlyAtBudget | app.py:99-100 | The warning occurs exactly when 5 rounds ran and the returned reply still asks for calls, and only as the last effect |
| LoopProperties.ToolCallCountAppend | app.py:64-86 | Tool calls of joined traces add up |
| LoopProperties.RoundTraceCallCount | app.py:64-73 | A round calls tools exactly once per requested call |
| LoopProperties.EventsAreDispatch | app.py:60-86 | The effects of the first `k` rounds are exactly those of dispatching, in order, every call the first `k` replies asked for |
| LoopProperties.EventsCallCount | app.py:60-86 | The first `k` rounds call tools exactly as often as the first `k` replies asked for calls |
| LoopProperties.DispatchCount | app.py:60-100 | A run calls tools exactly as often as the answered replies asked: the calls pending in the returned reply are never made |
| LoopProperties.FirstReplyFinal | app.py:49-62 | A first reply without calls ends the run at once: no round, one request at temperature 0, a two-turn transcript, no effects, and that reply is returned |
| LoopProperties.EndlessModel | app.py:60-100 | A model that always asks for calls is cut off after exactly 5 rounds and 6 requests, and the effects end with the warning |
| Scenarios.FailingToolIsReported | app.py:64-97 | Worked run in which every tool call times out. The exception becomes the error response `"Tool execution failed: McpError: …"`, the model is asked again, and its text reply ends the run after one round, with one notice, one call and no warning |
| Scenarios.RetriedToolSucceeds | app.py:60-97 | Worked run in which the same search is asked for twice and the session times out in the first round only. The first answer is the error response and the second is `{"result": "3 listings found"}`. The text reply then ends the run after two rounds and three requests, with a notice and a call per search and no warning |

## Left out

- The Streamlit UI, environment and credential loading, and Gemini client construction (app.py:1-33, 104-121) are
  configuration and presentation. The info notices and the warning are modelled only as entries of the effect trace.
- The MCP subprocess, the stdio transport, asyncio and the Windows event-loop policy are left out. The awaits are
  sequential, so each becomes an ordinary call.
- `session.initialize()` and `session.list_tools()`: the tool list is an input. A failure of either, which ends
  `agent_loop` with an exception, is not modelled.
- `generate_content`: the model client is an oracle that always answers. A failing request, a reply without
  candidates, and the text and other fields of the response are not modelled.
- Content items without text are not modelled: the session returns only texts. The `AttributeError` that such an
  item would raise inside the `try` is therefore not modelled either.
- Only exceptions caught by `except Exception` are modelled. `BaseException`s such as cancellation propagate out of
  the loop and are not modelled.
- Temperatures are the tags `Zero` and `One`, not floating-point values.
- Argument values and input schemas are opaque text rather than JSON values.
- The `repr` formatting of arguments in the notice and `str(e)` of an exception are not modelled. The notice carries
  the tool name and the argument mapping; the exception carries its class name and message.
- Dispatch.RoundTrace: its contract states only the length; which notice and call sit at which position is given by
  its definition and by `Dispatch.RoundTraceSnoc`.
