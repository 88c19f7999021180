/** What the agent loop guarantees for every prompt, every tool list and
    every behaviour of the model client and the tool session. */
module LoopProperties {
  import opened Types
  import Catalogue
  import opened Dispatch
  import opened Orchestration

  // ----- Termination and the round budget -----

  /** The search for the number of rounds starting at `k` passes only replies
      that ask for calls, and stops at a reply without calls or at the budget. */
  lemma {:induction false} TurnsFromStops(env: Inputs, k: nat)
    requires k <= MaxToolTurns
    decreases MaxToolTurns - k
    ensures forall i :: k <= i < TurnsFrom(env, k) ==> FunctionCalls(Reply(env, i)) != []
    ensures FunctionCalls(Reply(env, TurnsFrom(env, k))) == [] || TurnsFrom(env, k) == MaxToolTurns
  {
    if FunctionCalls(Reply(env, k)) != [] && k < MaxToolTurns {
      TurnsFromStops(env, k + 1);
      forall i | k <= i < TurnsFrom(env, k)
        ensures FunctionCalls(Reply(env, i)) != []
      {
        if i > k {
          assert k + 1 <= i < TurnsFrom(env, k + 1);
        }
      }
    }
  }

  /** The loop runs at most `MaxToolTurns` rounds and issues one request more
      than it runs rounds; every round answers a reply that asked for calls,
      and the loop stops exactly at the first reply without calls or when the
      budget is used up. */
  lemma {:induction false} RunStops(env: Inputs)
    ensures var run := Expected(env);
            && run.turns <= MaxToolTurns
            && |run.requests| == run.turns + 1
            && |run.contents| == 2 * run.turns + 2
            && (forall i :: 0 <= i < run.turns ==> FunctionCalls(Reply(env, i)) != [])
            && (FunctionCalls(run.response) == [] || run.turns == MaxToolTurns)
  {
    TurnsFromStops(env, 0);
  }

  // ----- The transcript and the request log -----

  /** The latest reply closes the transcript, and the latest request carries
      the transcript without that reply, at temperature 0 for the first
      request and 1.0 afterwards, with the catalogue built from the tool list. */
  lemma {:induction false} LatestRound(env: Inputs, k: nat)
    ensures var p := Rounds(env, k);
            && p.contents[2 * k + 1] == p.response
            && p.requests[k].contents == p.contents[..2 * k + 1]
            && p.requests[k].temperature == TemperatureOf(k)
            && p.requests[k].tools == Catalogue.Build(env.tools)
            && env.model(k, p.requests[k]) == p.response
  {
    var p := Rounds(env, k);
    if k == 0 {
      assert p.contents[..1] == [Seed(env.prompt)];
    } else {
      NextRound(env, k - 1);
      assert p.contents[..2 * k + 1] == Rounds(env, k - 1).contents + [ToolTurn(FunctionCalls(Reply(env, k - 1)), env.session, k)];
    }
  }

  // One round takes nothing back: the transcript, the request log and the
  // effects before round `k` are prefixes of those after it.

  lemma {:induction false} ContentsExtend(env: Inputs, k: nat)
    requires 0 < k
    ensures Rounds(env, k - 1).contents == Rounds(env, k).contents[..2 * k]
  {
    NextRound(env, k - 1);
  }

  lemma {:induction false} RequestsExtend(env: Inputs, k: nat)
    requires 0 < k
    ensures Rounds(env, k - 1).requests == Rounds(env, k).requests[..k]
  {
    NextRound(env, k - 1);
  }

  lemma {:induction false} TraceStep(env: Inputs, k: nat)
    requires 0 < k
    ensures Rounds(env, k).trace == Rounds(env, k - 1).trace + RoundTrace(FunctionCalls(Reply(env, k - 1)))
  {
    NextRound(env, k - 1);
  }

  /** The transcript only grows: the transcript after `j` rounds is a prefix
      of the transcript after `k` rounds, for every `j <= k`. */
  lemma {:induction false} ContentsGrow(env: Inputs, j: nat, k: nat)
    requires j <= k
    decreases k
    ensures Rounds(env, j).contents == Rounds(env, k).contents[..2 * j + 2]
  {
    var contents := Rounds(env, k).contents;
    if j < k {
      ContentsGrow(env, j, k - 1);
      ContentsExtend(env, k);
      assert contents[..2 * k][..2 * j + 2] == contents[..2 * j + 2];
    } else {
      assert contents[..2 * k + 2] == contents;
    }
  }

  /** The request log only grows. */
  lemma {:induction false} RequestsGrow(env: Inputs, j: nat, k: nat)
    requires j <= k
    decreases k
    ensures Rounds(env, j).requests == Rounds(env, k).requests[..j + 1]
  {
    var requests := Rounds(env, k).requests;
    if j < k {
      RequestsGrow(env, j, k - 1);
      RequestsExtend(env, k);
      assert requests[..k][..j + 1] == requests[..j + 1];
    } else {
      assert requests[..k + 1] == requests;
    }
  }

  /** The effects only grow. */
  lemma {:induction false} TraceGrows(env: Inputs, j: nat, k: nat)
    requires j <= k
    decreases k
    ensures Rounds(env, j).trace <= Rounds(env, k).trace
  {
    if j < k {
      TraceGrows(env, j, k - 1);
      TraceStep(env, k);
    }
  }

  // The transcript after `k` rounds: the prompt as a user turn, then the
  // reply to request `i` at position `2 i + 1`, followed, for every reply
  // that was answered, by the user turn holding the answers to all its calls.

  lemma {:induction false} PromptFirst(env: Inputs, k: nat)
    ensures Rounds(env, k).contents[0] == Seed(env.prompt)
  {
    ContentsGrow(env, 0, k);
    assert Rounds(env, k).contents[0] == Rounds(env, 0).contents[0];
  }

  lemma {:induction false} ReplyPosition(env: Inputs, k: nat, i: nat)
    requires i <= k
    ensures Rounds(env, k).contents[2 * i + 1] == Reply(env, i)
  {
    ContentsGrow(env, i, k);
    LatestRound(env, i);
    assert Rounds(env, k).contents[2 * i + 1] == Rounds(env, i).contents[2 * i + 1];
  }

  lemma {:induction false} ToolTurnPosition(env: Inputs, k: nat, i: nat)
    requires i < k
    ensures Rounds(env, k).contents[2 * i + 2] == ToolTurn(FunctionCalls(Reply(env, i)), env.session, i + 1)
  {
    ContentsGrow(env, i + 1, k);
    NextRound(env, i);
    assert Rounds(env, k).contents[2 * i + 2] == Rounds(env, i + 1).contents[2 * i + 2];
  }

  /** If every reply the model gives is a `model` turn, the transcript
      alternates: `user` turns at the even positions, `model` turns at the odd
      ones, never two turns of the same role in a row. */
  lemma {:induction false} TranscriptAlternates(env: Inputs, k: nat, j: nat)
    requires forall i :: 0 <= i <= k ==> Reply(env, i).role == Model
    requires j < 2 * k + 2
    ensures Rounds(env, k).contents[j].role == (if j % 2 == 0 then User else Model)
  {
    var i := (j - 1) / 2;
    if j == 0 {
      PromptFirst(env, k);
    } else if j % 2 == 1 {
      assert j == 2 * i + 1 && i <= k;
      ReplyPosition(env, k, i);
      assert Reply(env, i).role == Model;
    } else {
      assert j == 2 * i + 2 && i < k;
      ToolTurnPosition(env, k, i);
    }
  }

  /** In round `i + 1` the user turn holds exactly one function response per
      call of reply `i`, in the order of the calls, each carrying its call's
      tool name and a response with exactly one key. */
  lemma {:induction false} ResponsesMatchCalls(env: Inputs, k: nat, i: nat, n: nat)
    requires i < k
    requires n < |FunctionCalls(Reply(env, i))|
    ensures var calls := FunctionCalls(Reply(env, i));
            var turn := Rounds(env, k).contents[2 * i + 2];
            && turn.role == User
            && |turn.parts| == |calls|
            && turn.parts[n] == Respond(calls[n], env.session, i + 1, n)
            && turn.parts[n].name == calls[n].name
            && |turn.parts[n].response| == 1
  {
    ToolTurnPosition(env, k, i);
  }

  /** The request log: request `i` is sent with the transcript as it stood
      then, a prefix of the final transcript; the first request has
      temperature 0 and every later one 1.0; every request offers the same
      catalogue, built from the tool list; and reply `i` is the model's
      answer to request `i`. */
  lemma {:induction false} RequestLog(env: Inputs, k: nat, i: nat)
    requires i <= k
    ensures var request := Rounds(env, k).requests[i];
            && request.contents == Rounds(env, k).contents[..2 * i + 1]
            && request.temperature == TemperatureOf(i)
            && request.tools == Catalogue.Build(env.tools)
            && Reply(env, i) == env.model(i, request)
  {
    ContentsGrow(env, i, k);
    RequestsGrow(env, i, k);
    LatestRound(env, i);
    assert Rounds(env, k).requests[i] == Rounds(env, i).requests[i];
    assert Rounds(env, k).contents[..2 * i + 1] == Rounds(env, i).contents[..2 * i + 1];
  }

  // ----- The effects: notices and tool calls -----

  /** Every tool call in `trace` is immediately preceded by the info notice
      naming the same tool and the same arguments. */
  ghost predicate Announced(trace: seq<Event>)
  {
    forall j :: 0 <= j < |trace| && trace[j].ToolCall? ==>
      0 < j && trace[j - 1] == Info(trace[j].tool, trace[j].args)
  }

  lemma {:induction false} AnnouncedAppend(a: seq<Event>, b: seq<Event>)
    requires Announced(a) && Announced(b)
    requires b != [] ==> !b[0].ToolCall?
    ensures Announced(a + b)
  {
    forall j | 0 <= j < |a + b| && (a + b)[j].ToolCall?
      ensures 0 < j && (a + b)[j - 1] == Info((a + b)[j].tool, (a + b)[j].args)
    {
      if j >= |a| {
        assert (a + b)[j] == b[j - |a|];
        if j > |a| {
          assert (a + b)[j - 1] == b[j - 1 - |a|];
        }
      }
    }
  }

  /** One round announces every call before making it and starts with a notice. */
  lemma {:induction false} RoundTraceAnnounced(calls: seq<FunctionCall>)
    ensures Announced(RoundTrace(calls))
    ensures RoundTrace(calls) != [] ==> RoundTrace(calls)[0].Info?
  {
    var trace := RoundTrace(calls);
    forall j | 0 <= j < |trace| && trace[j].ToolCall?
      ensures 0 < j && trace[j - 1] == Info(trace[j].tool, trace[j].args)
    {
      assert j % 2 == 1 && (j - 1) / 2 == j / 2;
    }
  }

  lemma {:induction false} EventsAnnounced(env: Inputs, k: nat)
    ensures Announced(Rounds(env, k).trace)
  {
    if k > 0 {
      EventsAnnounced(env, k - 1);
      NextRound(env, k - 1);
      RoundTraceAnnounced(FunctionCalls(Reply(env, k - 1)));
      AnnouncedAppend(Rounds(env, k - 1).trace, RoundTrace(FunctionCalls(Reply(env, k - 1))));
    }
  }

  /** Throughout a run, one info notice naming the tool and its (normalised)
      arguments is emitted immediately before each tool call. */
  lemma {:induction false} CallsAnnounced(env: Inputs)
    ensures Announced(Expected(env).trace)
  {
    var run := Expected(env);
    EventsAnnounced(env, run.turns);
    AnnouncedAppend(Rounds(env, run.turns).trace, run.trace[|Rounds(env, run.turns).trace|..]);
    assert run.trace == Rounds(env, run.turns).trace + run.trace[|Rounds(env, run.turns).trace|..];
  }

  lemma {:induction false} EventsHaveNoWarning(env: Inputs, k: nat)
    ensures forall e :: e in Rounds(env, k).trace ==> !e.Warning?
  {
    if k > 0 {
      EventsHaveNoWarning(env, k - 1);
      NextRound(env, k - 1);
      RoundTraceHasNoWarning(FunctionCalls(Reply(env, k - 1)));
    }
  }

  /** The budget warning appears in the effects exactly when the budget was
      used up with calls still pending, and then only once, as the last effect. */
  lemma {:induction false} WarningOnlyAtBudget(env: Inputs)
    ensures var run := Expected(env);
            && (Warning(MaxTurnsWarning) in run.trace <==>
                  run.turns == MaxToolTurns && FunctionCalls(run.response) != [])
            && (forall j :: 0 <= j < |run.trace| - 1 ==> !run.trace[j].Warning?)
  {
    var run := Expected(env);
    EventsHaveNoWarning(env, run.turns);
    assert forall j :: 0 <= j < |Rounds(env, run.turns).trace| ==> run.trace[j] == Rounds(env, run.turns).trace[j];
  }

  /** The number of tool calls among `trace`. */
  function ToolCallCount(trace: seq<Event>): nat
  {
    if trace == [] then 0
    else ToolCallCount(trace[..|trace| - 1]) + (if trace[|trace| - 1].ToolCall? then 1 else 0)
  }

  lemma {:induction false} ToolCallCountAppend(a: seq<Event>, b: seq<Event>)
    ensures ToolCallCount(a + b) == ToolCallCount(a) + ToolCallCount(b)
  {
    if b == [] {
      assert a + b == a;
    } else {
      ToolCallCountAppend(a, b[..|b| - 1]);
      assert (a + b)[..|a + b| - 1] == a + b[..|b| - 1];
    }
  }

  /** A round makes exactly one tool call per requested call. */
  lemma {:induction false} RoundTraceCallCount(calls: seq<FunctionCall>)
    ensures ToolCallCount(RoundTrace(calls)) == |calls|
  {
    if calls != [] {
      var init, last := calls[..|calls| - 1], calls[|calls| - 1];
      var notice := Info(last.name, NormalizeArgs(last.args));
      var pair := [notice, ToolCall(last.name, NormalizeArgs(last.args))];
      assert calls == init + [last];
      RoundTraceSnoc(init, last);
      RoundTraceCallCount(init);
      ToolCallCountAppend(RoundTrace(init), pair);
      assert pair[..1] == [notice] && [notice][..0] == [];
      assert ToolCallCount([notice]) == 0;
      assert ToolCallCount(pair) == 1;
    }
  }

  /** The calls the first `k` replies ask for, in order. */
  function Dispatched(env: Inputs, k: nat): seq<FunctionCall>
  {
    if k == 0 then [] else Dispatched(env, k - 1) + FunctionCalls(Reply(env, k - 1))
  }

  /** The effects of the first `k` rounds are those of dispatching, in order,
      every call the first `k` replies asked for. */
  lemma {:induction false} EventsAreDispatch(env: Inputs, k: nat)
    ensures Rounds(env, k).trace == RoundTrace(Dispatched(env, k))
  {
    if k > 0 {
      EventsAreDispatch(env, k - 1);
      TraceStep(env, k);
      RoundTraceAppend(Dispatched(env, k - 1), FunctionCalls(Reply(env, k - 1)));
    }
  }

  /** The first `k` rounds call tools exactly as often as the replies they
      answer asked for calls. */
  lemma {:induction false} EventsCallCount(env: Inputs, k: nat)
    ensures ToolCallCount(Rounds(env, k).trace) == |Dispatched(env, k)|
  {
    EventsAreDispatch(env, k);
    RoundTraceCallCount(Dispatched(env, k));
  }

  /** A run calls tools exactly as often as the replies of its rounds asked
      for calls: the calls still pending in the returned reply are never made. */
  lemma {:induction false} DispatchCount(env: Inputs)
    ensures var run := Expected(env);
            ToolCallCount(run.trace) == |Dispatched(env, run.turns)|
  {
    var run := Expected(env);
    EventsCallCount(env, run.turns);
    ToolCallCountAppend(Rounds(env, run.turns).trace, run.trace[|Rounds(env, run.turns).trace|..]);
    assert run.trace == Rounds(env, run.turns).trace + run.trace[|Rounds(env, run.turns).trace|..];
  }

  // ----- Boundary behaviours -----

  /** A first reply without calls ends the run at once: no round, one
      request, no effect, and that reply is returned. */
  lemma FirstReplyFinal(env: Inputs)
    requires FunctionCalls(Reply(env, 0)) == []
    ensures Expected(env) == Run(Reply(env, 0), [Seed(env.prompt), Reply(env, 0)],
                                 [Request([Seed(env.prompt)], Zero, Catalogue.Build(env.tools))], [], 0)
  {
  }

  /** A model that always asks for calls is cut off by the budget: exactly
      `MaxToolTurns` rounds, `MaxToolTurns + 1` requests, and the effects end
      with the one budget warning. */
  lemma {:induction false} EndlessModel(env: Inputs)
    requires forall i: nat, r: Request :: FunctionCalls(env.model(i, r)) != []
    ensures var run := Expected(env);
            && run.turns == MaxToolTurns
            && |run.requests| == MaxToolTurns + 1
            && run.trace != [] && run.trace[|run.trace| - 1] == Warning(MaxTurnsWarning)
  {
    RunStops(env);
    assert FunctionCalls(Expected(env).response) != [];
  }
}
