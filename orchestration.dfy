/** The tool-calling agent loop: a first completion request at temperature 0,
    then up to `MaxToolTurns` rounds in which every requested call is run and
    answered in one user turn before the next request at temperature 1.0. */
module Orchestration {
  import opened Types
  import Catalogue
  import opened Dispatch

  /** The budget of tool-dispatch rounds (`max_tool_turns`). */
  const MaxToolTurns: nat := 5

  const MaxTurnsWarning := "Reached maximum tool turns. Stopping."

  /** What one run depends on: the prompt, the tools the session lists, and
      how the model client and the tool session answer. */
  datatype Inputs = Inputs(prompt: string, tools: seq<ToolDescriptor>, model: ModelClient, session: ToolSession)

  /** The first turn of every transcript: the prompt as a user turn. */
  function Seed(prompt: string): Content
  {
    Content(User, [Text(prompt)])
  }

  /** The temperature of the `k`-th completion request. */
  function TemperatureOf(k: nat): Temperature
  {
    if k == 0 then Zero else One
  }

  /** The state of the loop: the latest reply, the transcript, the log of
      completion requests and the effects so far. */
  datatype Progress = Progress(response: Content, contents: seq<Content>, requests: seq<Request>, trace: seq<Event>)

  /** The reference run: the state of the loop after `k` rounds of tool
      dispatch. Round 0 is the first request, at temperature 0, with the
      prompt alone; round `k + 1` answers every call of the latest reply in
      one user turn and sends the grown transcript again at temperature 1.0. */
  function Rounds(env: Inputs, k: nat): (p: Progress)
    ensures |p.contents| == 2 * k + 2
    ensures |p.requests| == k + 1
  {
    var decls := Catalogue.Build(env.tools);
    if k == 0 then
      var first := Request([Seed(env.prompt)], TemperatureOf(0), decls);
      Progress(env.model(0, first), [Seed(env.prompt), env.model(0, first)], [first], [])
    else
      var p := Rounds(env, k - 1);
      var calls := FunctionCalls(p.response);
      var sent := p.contents + [ToolTurn(calls, env.session, k)];
      var request := Request(sent, TemperatureOf(k), decls);
      var reply := env.model(k, request);
      Progress(reply, sent + [reply], p.requests + [request], p.trace + RoundTrace(calls))
  }

  /** The reply to the `k`-th completion request. */
  function Reply(env: Inputs, k: nat): Content
  {
    Rounds(env, k).response
  }

  /** The number of rounds the loop runs once `k` have run: it stops at a
      reply without calls or when the budget is used up. */
  function TurnsFrom(env: Inputs, k: nat): (turns: nat)
    requires k <= MaxToolTurns
    decreases MaxToolTurns - k
    ensures k <= turns <= MaxToolTurns
  {
    if FunctionCalls(Reply(env, k)) == [] || k >= MaxToolTurns then k
    else TurnsFrom(env, k + 1)
  }

  /** The count stops at a reply without calls and at the budget. */
  lemma TurnsFromStop(env: Inputs, k: nat)
    requires k <= MaxToolTurns
    requires FunctionCalls(Reply(env, k)) == [] || k == MaxToolTurns
    ensures TurnsFrom(env, k) == k
  {
  }

  /** Everything one run of the loop leaves behind: the reply it returns, the
      transcript, the log of completion requests, the effects in order, and the
      number of tool-dispatch rounds. */
  datatype Run = Run(response: Content, contents: seq<Content>, requests: seq<Request>, trace: seq<Event>, turns: nat)

  /** The run the loop makes on `env`: the state after the last round, with
      the budget warning added when the budget ran out with calls pending.
      At most `MaxToolTurns` rounds, one request more than rounds, two turns
      per request, and at most one effect after those of the rounds. */
  function Expected(env: Inputs): (run: Run)
    ensures run.turns <= MaxToolTurns
    ensures |run.requests| == run.turns + 1
    ensures |run.contents| == 2 * run.turns + 2
    ensures Rounds(env, run.turns).trace <= run.trace
    ensures |run.trace| == |Rounds(env, run.turns).trace| + 1 <==>
              run.turns == MaxToolTurns && FunctionCalls(run.response) != []
    ensures |run.trace| <= |Rounds(env, run.turns).trace| + 1
  {
    var turns := TurnsFrom(env, 0);
    var p := Rounds(env, turns);
    var warning := if turns >= MaxToolTurns && FunctionCalls(p.response) != [] then [Warning(MaxTurnsWarning)] else [];
    Run(p.response, p.contents, p.requests, p.trace + warning, turns)
  }

  /** Round `k + 1` in terms of round `k`: the user turn answering the calls
      of reply `k` and the reply to the new request at temperature 1.0 join
      the transcript, the request joins the log, and the effects of the
      dispatch join the trace. */
  lemma NextRound(env: Inputs, k: nat)
    ensures var p := Rounds(env, k);
            var calls := FunctionCalls(p.response);
            var sent := p.contents + [ToolTurn(calls, env.session, k + 1)];
            var request := Request(sent, TemperatureOf(k + 1), Catalogue.Build(env.tools));
            && Rounds(env, k + 1).response == env.model(k + 1, request)
            && Rounds(env, k + 1).contents == sent + [env.model(k + 1, request)]
            && Rounds(env, k + 1).requests == p.requests + [request]
            && Rounds(env, k + 1).trace == p.trace + RoundTrace(calls)
  {
  }

  /** The inner loop of one round: every call, in the order listed, is
      announced, run and answered; the answers are collected in order. */
  method DispatchCalls(calls: seq<FunctionCall>, session: ToolSession, round: nat) returns (parts: seq<Part>, events: seq<Event>)
    ensures parts == Responses(calls, session, round)
    ensures events == RoundTrace(calls)
  {
    parts, events := [], [];
    for j := 0 to |calls|
      invariant parts == Responses(calls[..j], session, round)
      invariant events == RoundTrace(calls[..j])
    {
      var name := calls[j].name;
      var args := NormalizeArgs(calls[j].args);
      events := events + [Info(name, args)];
      var result := session(round, j, name, args);
      events := events + [ToolCall(name, args)];
      parts := parts + [FunctionResponse(name, Classify(result))];
      assert calls[..j + 1][..j] == calls[..j];
    }
    assert calls[..|calls|] == calls;
  }

  /** `agent_loop`: the returned reply, the transcript, the request log, the
      effects and the round count are those of the reference run. */
  method AgentLoop(prompt: string, tools: seq<ToolDescriptor>, model: ModelClient, session: ToolSession)
    returns (response: Content, contents: seq<Content>, requests: seq<Request>, trace: seq<Event>, turnCount: nat)
    ensures Run(response, contents, requests, trace, turnCount) == Expected(Inputs(prompt, tools, model, session))
  {
    ghost var env := Inputs(prompt, tools, model, session);
    contents := [Seed(prompt)];
    var decls := Catalogue.Build(tools);
    var request := Request(contents, Zero, decls);
    requests := [request];
    response := model(0, request);
    contents := contents + [response];
    trace := [];
    turnCount := 0;
    while FunctionCalls(response) != [] && turnCount < MaxToolTurns
      invariant turnCount <= MaxToolTurns
      invariant TurnsFrom(env, turnCount) == TurnsFrom(env, 0)
      invariant response == Rounds(env, turnCount).response
      invariant contents == Rounds(env, turnCount).contents
      invariant requests == Rounds(env, turnCount).requests
      invariant trace == Rounds(env, turnCount).trace
      decreases MaxToolTurns - turnCount
    {
      NextRound(env, turnCount);
      turnCount := turnCount + 1;
      var calls := FunctionCalls(response);
      var parts, events := DispatchCalls(calls, session, turnCount);
      trace := trace + events;
      assert Content(User, parts) == ToolTurn(calls, session, turnCount);
      contents := contents + [Content(User, parts)];
      request := Request(contents, One, decls);
      requests := requests + [request];
      response := model(turnCount, request);
      contents := contents + [response];
    }
    TurnsFromStop(env, turnCount);
    if turnCount >= MaxToolTurns && FunctionCalls(response) != [] {
      trace := trace + [Warning(MaxTurnsWarning)];
    }
  }
}
