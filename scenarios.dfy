/** Two concrete runs of the agent loop, worked out in full: a tool that
    fails, and a tool that fails and then succeeds when the call is retried. */
module Scenarios {
  import opened Types
  import opened Dispatch
  import opened Orchestration

  const Search := "airbnb_search"
  const SearchArgs: Args := map["location" := "Paris"]
  const SearchCall := FunctionCall(Search, Some(SearchArgs))

  /** A model that asks for one search on the first request and answers in
      text from then on. */
  function SearchThenAnswer(i: nat, r: Request): Content
  {
    if i == 0 then Content(Model, [Call(SearchCall)])
    else Content(Model, [Text("Here are the listings.")])
  }

  /** A tool session on which every call times out. */
  function TimingOut(round: nat, position: nat, name: string, args: Args): CallToolResult
  {
    Raised("McpError", "Timed out while waiting for response")
  }

  /** A failing tool does not end the run: the exception becomes an error
      response, the model is asked again, and its text reply is returned after
      one round, with the notice and the call recorded and no warning. */
  lemma {:induction false} FailingToolIsReported(prompt: string, tools: seq<ToolDescriptor>)
    ensures var run := Expected(Inputs(prompt, tools, SearchThenAnswer, TimingOut));
            && run.turns == 1
            && |run.requests| == 2
            && run.response == Content(Model, [Text("Here are the listings.")])
            && run.contents[2] == Content(User, [FunctionResponse(Search, map["error" := FailureText("McpError", "Timed out while waiting for response")])])
            && run.trace == [Info(Search, SearchArgs), ToolCall(Search, SearchArgs)]
  {
    var env := Inputs(prompt, tools, SearchThenAnswer, TimingOut);
    var failure := FailureText("McpError", "Timed out while waiting for response");
    assert Responses([SearchCall], TimingOut, 1) == [FunctionResponse(Search, map["error" := failure])];
    assert FunctionCalls(Reply(env, 0)) == [SearchCall];
    NextRound(env, 0);
    assert Rounds(env, 1).contents[2] == ToolTurn([SearchCall], TimingOut, 1);
    assert FunctionCalls(Reply(env, 1)) == [];
  }

  /** A model that asks for the same search on the first two requests and
      answers in text from then on. */
  function SearchTwiceThenAnswer(i: nat, r: Request): Content
  {
    if i <= 1 then Content(Model, [Call(SearchCall)])
    else Content(Model, [Text("Here are the listings.")])
  }

  /** A tool session whose first round times out and which answers from the
      second round on. */
  function SucceedsOnRetry(round: nat, position: nat, name: string, args: Args): CallToolResult
  {
    if round <= 1 then Raised("McpError", "Timed out while waiting for response")
    else Returned(false, ["3 listings found"])
  }

  /** A retried call can succeed: the first search is answered with the
      error, the repeated search with the result, and the text reply after
      it ends the run after two rounds and three requests, with a notice and
      a call per search and no warning. */
  lemma {:induction false} RetriedToolSucceeds(prompt: string, tools: seq<ToolDescriptor>)
    ensures var run := Expected(Inputs(prompt, tools, SearchTwiceThenAnswer, SucceedsOnRetry));
            && run.turns == 2
            && |run.requests| == 3
            && run.response == Content(Model, [Text("Here are the listings.")])
            && run.contents[2] == Content(User, [FunctionResponse(Search, map["error" := FailureText("McpError", "Timed out while waiting for response")])])
            && run.contents[4] == Content(User, [FunctionResponse(Search, map["result" := "3 listings found"])])
            && run.trace == [Info(Search, SearchArgs), ToolCall(Search, SearchArgs), Info(Search, SearchArgs), ToolCall(Search, SearchArgs)]
  {
    var env := Inputs(prompt, tools, SearchTwiceThenAnswer, SucceedsOnRetry);
    var failure := FailureText("McpError", "Timed out while waiting for response");
    assert Responses([SearchCall], SucceedsOnRetry, 1) == [FunctionResponse(Search, map["error" := failure])];
    assert Responses([SearchCall], SucceedsOnRetry, 2) == [FunctionResponse(Search, map["result" := "3 listings found"])];
    assert FunctionCalls(Reply(env, 0)) == [SearchCall];
    NextRound(env, 0);
    assert Rounds(env, 1).contents[2] == ToolTurn([SearchCall], SucceedsOnRetry, 1);
    assert FunctionCalls(Reply(env, 1)) == [SearchCall];
    NextRound(env, 1);
    assert Rounds(env, 2).contents[2] == Rounds(env, 1).contents[2];
    assert Rounds(env, 2).contents[4] == ToolTurn([SearchCall], SucceedsOnRetry, 2);
    assert FunctionCalls(Reply(env, 2)) == [];
    assert TurnsFrom(env, 0) == 2;
  }
}
