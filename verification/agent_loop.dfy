/** The agent loop controller (`process_model_response`): on each of at
    most `Iterations` rounds it takes the first `computer_call` of the
    current response, performs its action, takes a screenshot, and replaces
    the response by the model's answer to that screenshot. It stops early
    as soon as a response has no `computer_call`.

    The model service and the page are parameters (`Env`): the model is an
    arbitrary function from request to response, and a screenshot is an
    arbitrary function of everything the program has done so far. */
module AgentLoop {
  import opened Wrappers
  import opened Config
  import opened Types
  import opened Executor
  import opened Capturer
  import opened Bridge

  /** The outside world: what a screenshot shows after a given history of
      effects, and how the model answers a request. */
  datatype Env = Env(capture: seq<Effect> -> string, model: Request -> Response)

  /** One completed round: the response acted on, the call chosen from it,
      the screenshot taken afterwards and the request that reported it. */
  datatype Round = Round(response: Response, call: Call, token: string, request: Request)

  /** The rounds a run performed and the response it held when it stopped. */
  datatype Run = Run(rounds: seq<Round>, final: Response)

  // ---------------------------------------------------------------------
  // Selecting the call to act on

  /** The `computer_call` items of an output list, in output order. */
  function ComputerCalls(output: seq<OutputItem>): (calls: seq<Call>)
    ensures |calls| <= |output|
    ensures forall c :: c in calls <==> ComputerCall(c) in output
  {
    if output == [] then []
    else if output[0].ComputerCall? then [output[0].call] + ComputerCalls(output[1..])
    else ComputerCalls(output[1..])
  }

  /** The filter keeps a `computer_call` item as its call and drops any
      other item. */
  lemma {:induction false} ComputerCallsSingle(c: Call, kind: OtherItemKind)
    ensures ComputerCalls([ComputerCall(c)]) == [c]
    ensures ComputerCalls([OtherItem(kind)]) == []
  {
    assert [ComputerCall(c)][1..] == [];
    assert [OtherItem(kind)][1..] == [];
  }

  /** Filtering a concatenation filters each part and keeps their order, so
      together with `ComputerCallsSingle` the filter keeps every call, with
      repetitions, in output order. */
  lemma {:induction false} ComputerCallsAppend(a: seq<OutputItem>, b: seq<OutputItem>)
    ensures ComputerCalls(a + b) == ComputerCalls(a) + ComputerCalls(b)
  {
    if a == [] {
      assert a + b == b;
    } else {
      assert (a + b)[1..] == a[1..] + b;
      ComputerCallsAppend(a[1..], b);
    }
  }

  /** No item before position `j` is a `computer_call`. */
  predicate NoCallBefore(output: seq<OutputItem>, j: int)
    requires 0 <= j <= |output|
  {
    forall k :: 0 <= k < j ==> !output[k].ComputerCall?
  }

  /** The call the loop acts on: the first of the response's calls, if any. */
  function FirstCall(output: seq<OutputItem>): (first: Option<Call>)
    ensures first == None <==> NoCallBefore(output, |output|)
    ensures first.Some? ==> ComputerCall(first.value) in output
  {
    var calls := ComputerCalls(output);
    if calls == [] then None
    else
      assert calls[0] in calls;
      Some(calls[0])
  }

  /** The chosen call is the earliest `computer_call` in output order;
      every later one is passed over. */
  lemma {:induction false} FirstCallIsEarliest(output: seq<OutputItem>, c: Call)
    ensures FirstCall(output) == Some(c) <==>
      exists j :: 0 <= j < |output| && output[j] == ComputerCall(c) && NoCallBefore(output, j)
  {
    if output == [] {
    } else if output[0].ComputerCall? {
      assert FirstCall(output) == Some(output[0].call);
      if FirstCall(output) == Some(c) {
        assert output[0] == ComputerCall(c) && NoCallBefore(output, 0);
      }
      forall j | 0 <= j < |output| && output[j] == ComputerCall(c) && NoCallBefore(output, j)
        ensures FirstCall(output) == Some(c)
      {
      }
    } else {
      var tail := output[1..];
      assert ComputerCalls(output) == ComputerCalls(tail);
      FirstCallIsEarliest(tail, c);
      if FirstCall(output) == Some(c) {
        var j :| 0 <= j < |tail| && tail[j] == ComputerCall(c) && NoCallBefore(tail, j);
        assert output[j + 1] == ComputerCall(c) && NoCallBefore(output, j + 1);
      }
      forall j | 0 <= j < |output| && output[j] == ComputerCall(c) && NoCallBefore(output, j)
        ensures FirstCall(output) == Some(c)
      {
        assert j > 0;
        assert tail[j - 1] == ComputerCall(c) && NoCallBefore(tail, j - 1);
      }
    }
  }

  // ---------------------------------------------------------------------
  // The loop

  /** The effects of one round, in the order they happen: the action's
      browser operations, the screenshot, then the request to the model. */
  function RoundEffects(r: Round): seq<Effect>
  {
    HandleAction(r.call.action) + [Screenshot(r.token), CreateResponse(r.request)]
  }

  /** The effects of a sequence of rounds. */
  function Log(rounds: seq<Round>): seq<Effect>
  {
    if rounds == [] then [] else RoundEffects(rounds[0]) + Log(rounds[1..])
  }

  /** The round that acts on `call` of `response` after `history`. */
  function StepRound(response: Response, call: Call, env: Env, history: seq<Effect>): Round
  {
    var token := env.capture(history + HandleAction(call.action));
    Round(response, call, token, FollowUpRequest(response.id, call.callId, token))
  }

  /** The loop from round number `iteration` on, holding `response`, after
      the effects in `history` have already happened. */
  function Loop(iteration: nat, response: Response, env: Env, history: seq<Effect>): (run: Run)
    requires 1 <= iteration <= Iterations + 1
    ensures |run.rounds| <= Iterations + 1 - iteration
    ensures run.rounds == [] <==> iteration > Iterations || FirstCall(response.output) == None
    ensures run.rounds == [] ==> run.final == response
    decreases Iterations + 1 - iteration
  {
    if iteration > Iterations then Run([], response)
    else match FirstCall(response.output)
      case None => Run([], response)
      case Some(call) =>
        var round := StepRound(response, call, env, history);
        var rest := Loop(iteration + 1, env.model(round.request), env, history + RoundEffects(round));
        Run([round] + rest.rounds, rest.final)
  }

  /** The whole loop, as the program enters it with its first response. */
  function Process(response: Response, env: Env, history: seq<Effect>): Run
  {
    Loop(1, response, env, history)
  }

  // ---------------------------------------------------------------------
  // A round-by-round description of a correct run

  /** The response held at the start of round `i`: the first response for
      round 0, and the model's answer to the previous round's request after. */
  function ResponseAt(start: Response, env: Env, rounds: seq<Round>, i: nat): Response
    requires i <= |rounds|
  {
    if i == 0 then start else env.model(rounds[i - 1].request)
  }

  /** Round `i` acts on the response it holds, chooses that response's first
      call, screenshots the page after the call's action, and answers the
      call quoting the response id, the call id and the screenshot. */
  predicate RoundOk(start: Response, env: Env, history: seq<Effect>, rounds: seq<Round>, i: nat)
    requires i < |rounds|
  {
    var r := rounds[i];
    && r.response == ResponseAt(start, env, rounds, i)
    && FirstCall(r.response.output) == Some(r.call)
    && r.token == env.capture(history + Log(rounds[..i]) + HandleAction(r.call.action))
    && r.request == FollowUpRequest(r.response.id, r.call.callId, r.token)
  }

  /** `run` is a correct run starting at round number `iteration`: every
      round is correct, the final response is the last answer, and the run
      stopped because the budget is used up or the final response holds
      no call. */
  predicate IsRun(iteration: nat, start: Response, env: Env, history: seq<Effect>, run: Run)
    requires iteration <= Iterations + 1
  {
    && |run.rounds| <= Iterations + 1 - iteration
    && (forall i :: 0 <= i < |run.rounds| ==> RoundOk(start, env, history, run.rounds, i))
    && run.final == ResponseAt(start, env, run.rounds, |run.rounds|)
    && (|run.rounds| == Iterations + 1 - iteration || FirstCall(run.final.output) == None)
  }

  lemma {:induction false} LogCons(r: Round, rounds: seq<Round>)
    ensures Log([r] + rounds) == RoundEffects(r) + Log(rounds)
  {
    assert ([r] + rounds)[1..] == rounds;
  }

  /** Round `i + 1` of a run is correct exactly when it is correct as round
      `i` of the run that starts with the first round's answer. */
  lemma {:induction false} ShiftRoundOk(start: Response, env: Env, history: seq<Effect>, rounds: seq<Round>, i: nat)
    requires i + 1 < |rounds|
    ensures RoundOk(start, env, history, rounds, i + 1) <==>
      RoundOk(env.model(rounds[0].request), env, history + RoundEffects(rounds[0]), rounds[1..], i)
  {
    var tail := rounds[1..];
    assert rounds[..i + 1] == [rounds[0]] + tail[..i];
    LogCons(rounds[0], tail[..i]);
    assert history + Log(rounds[..i + 1]) == history + RoundEffects(rounds[0]) + Log(tail[..i]);
    assert ResponseAt(start, env, rounds, i + 1) == ResponseAt(env.model(rounds[0].request), env, tail, i);
  }

  /** The rounds after the first of a correct run form a correct run from
      the first round's answer. */
  lemma {:induction false} RunTail(iteration: nat, start: Response, env: Env, history: seq<Effect>, run: Run)
    requires iteration <= Iterations
    requires |run.rounds| >= 1
    requires IsRun(iteration, start, env, history, run)
    ensures IsRun(iteration + 1, env.model(run.rounds[0].request), env,
                  history + RoundEffects(run.rounds[0]), Run(run.rounds[1..], run.final))
  {
    var rounds := run.rounds;
    forall i | 0 <= i < |rounds| - 1
      ensures RoundOk(env.model(rounds[0].request), env, history + RoundEffects(rounds[0]), rounds[1..], i)
    {
      ShiftRoundOk(start, env, history, rounds, i);
    }
    assert ResponseAt(start, env, rounds, |rounds|)
        == ResponseAt(env.model(rounds[0].request), env, rounds[1..], |rounds| - 1);
  }

  /** A correct first round followed by a correct run from its answer is a
      correct run. */
  lemma {:induction false} RunCons(iteration: nat, start: Response, env: Env, history: seq<Effect>, run: Run)
    requires iteration <= Iterations
    requires |run.rounds| >= 1
    requires RoundOk(start, env, history, run.rounds, 0)
    requires IsRun(iteration + 1, env.model(run.rounds[0].request), env,
                   history + RoundEffects(run.rounds[0]), Run(run.rounds[1..], run.final))
    ensures IsRun(iteration, start, env, history, run)
  {
    var rounds := run.rounds;
    forall i | 0 <= i < |rounds|
      ensures RoundOk(start, env, history, rounds, i)
    {
      if i > 0 {
        ShiftRoundOk(start, env, history, rounds, i - 1);
      }
    }
    assert ResponseAt(start, env, rounds, |rounds|)
        == ResponseAt(env.model(rounds[0].request), env, rounds[1..], |rounds| - 1);
  }

  /** One unfolding of the loop when the held response has a call. */
  lemma {:induction false} LoopStep(iteration: nat, start: Response, env: Env, history: seq<Effect>, call: Call)
    requires 1 <= iteration <= Iterations
    requires FirstCall(start.output) == Some(call)
    ensures
      var round := StepRound(start, call, env, history);
      var rest := Loop(iteration + 1, env.model(round.request), env, history + RoundEffects(round));
      Loop(iteration, start, env, history) == Run([round] + rest.rounds, rest.final)
  {
  }

  /** Round 0 is correct when it is the loop's step from the first response. */
  lemma {:induction false} FirstRoundOk(start: Response, env: Env, history: seq<Effect>, rounds: seq<Round>)
    requires |rounds| >= 1
    requires FirstCall(start.output) == Some(rounds[0].call)
    requires rounds[0] == StepRound(start, rounds[0].call, env, history)
    ensures RoundOk(start, env, history, rounds, 0)
  {
    assert rounds[..0] == [];
    assert history + Log(rounds[..0]) == history;
  }

  /** A correct run from a response without calls performs no round. */
  lemma {:induction false} NoCallNoRounds(iteration: nat, start: Response, env: Env, history: seq<Effect>, run: Run)
    requires iteration <= Iterations + 1
    requires FirstCall(start.output) == None
    requires IsRun(iteration, start, env, history, run)
    ensures run.rounds == [] && run.final == start
  {
    assert run.rounds != [] ==> RoundOk(start, env, history, run.rounds, 0);
  }

  /** The first round of a correct run that has a call to act on is the
      round the loop performs. */
  lemma {:induction false} FirstRoundIsStep(iteration: nat, start: Response, env: Env, history: seq<Effect>, run: Run, call: Call)
    requires 1 <= iteration <= Iterations
    requires FirstCall(start.output) == Some(call)
    requires IsRun(iteration, start, env, history, run)
    ensures run.rounds != [] && run.rounds[0] == StepRound(start, call, env, history)
  {
    assert run.rounds != [];
    assert RoundOk(start, env, history, run.rounds, 0);
    assert run.rounds[..0] == [];
    assert history + Log(run.rounds[..0]) + HandleAction(call.action) == history + HandleAction(call.action);
  }

  /** If the loop's run from the first round's answer is correct, so is
      the loop's run from the first response. */
  lemma {:induction false} LoopIsRunStep(iteration: nat, start: Response, env: Env, history: seq<Effect>, call: Call, round: Round)
    requires 1 <= iteration <= Iterations
    requires FirstCall(start.output) == Some(call)
    requires round == StepRound(start, call, env, history)
    requires IsRun(iteration + 1, env.model(round.request), env, history + RoundEffects(round),
                   Loop(iteration + 1, env.model(round.request), env, history + RoundEffects(round)))
    ensures IsRun(iteration, start, env, history, Loop(iteration, start, env, history))
  {
    var run := Loop(iteration, start, env, history);
    var history' := history + RoundEffects(round);
    var rest := Loop(iteration + 1, env.model(round.request), env, history');
    LoopStep(iteration, start, env, history, call);
    assert run.rounds[0] == round;
    assert Run(run.rounds[1..], run.final) == rest;
    FirstRoundOk(start, env, history, run.rounds);
    RunCons(iteration, start, env, history, run);
  }

  /** When the budget is spent or the response holds no call, the loop's
      empty run is correct. */
  lemma {:induction false} LoopIsRunDone(iteration: nat, start: Response, env: Env, history: seq<Effect>)
    requires 1 <= iteration <= Iterations + 1
    requires iteration > Iterations || FirstCall(start.output) == None
    ensures IsRun(iteration, start, env, history, Loop(iteration, start, env, history))
  {
  }

  /** The loop performs a correct run. */
  lemma {:induction false} LoopIsRun(iteration: nat, start: Response, env: Env, history: seq<Effect>)
    requires 1 <= iteration <= Iterations + 1
    ensures IsRun(iteration, start, env, history, Loop(iteration, start, env, history))
    decreases Iterations + 1 - iteration
  {
    if iteration <= Iterations && FirstCall(start.output).Some? {
      var call := FirstCall(start.output).value;
      var round := StepRound(start, call, env, history);
      LoopIsRun(iteration + 1, env.model(round.request), env, history + RoundEffects(round));
      LoopIsRunStep(iteration, start, env, history, call, round);
    } else {
      LoopIsRunDone(iteration, start, env, history);
    }
  }

  /** A correct run from a response with a call starts with the loop's
      step, and its other rounds are a correct run from that step's answer. */
  lemma {:induction false} RunUnfold(iteration: nat, start: Response, env: Env, history: seq<Effect>, run: Run, call: Call)
    requires 1 <= iteration <= Iterations
    requires FirstCall(start.output) == Some(call)
    requires IsRun(iteration, start, env, history, run)
    ensures |run.rounds| >= 1 && run.rounds[0] == StepRound(start, call, env, history)
    ensures
      var round := StepRound(start, call, env, history);
      IsRun(iteration + 1, env.model(round.request), env, history + RoundEffects(round), Run(run.rounds[1..], run.final))
  {
    FirstRoundIsStep(iteration, start, env, history, run, call);
    RunTail(iteration, start, env, history, run);
  }

  /** There is at most one correct run from a given response, history and
      round number. */
  lemma {:induction false} RunUnique(iteration: nat, start: Response, env: Env, history: seq<Effect>, a: Run, b: Run)
    requires 1 <= iteration <= Iterations + 1
    requires IsRun(iteration, start, env, history, a)
    requires IsRun(iteration, start, env, history, b)
    ensures a == b
    decreases Iterations + 1 - iteration
  {
    if iteration > Iterations {
    } else if FirstCall(start.output).None? {
      NoCallNoRounds(iteration, start, env, history, a);
      NoCallNoRounds(iteration, start, env, history, b);
    } else {
      var call := FirstCall(start.output).value;
      var round := StepRound(start, call, env, history);
      RunUnfold(iteration, start, env, history, a, call);
      RunUnfold(iteration, start, env, history, b, call);
      RunUnique(iteration + 1, env.model(round.request), env, history + RoundEffects(round),
                Run(a.rounds[1..], a.final), Run(b.rounds[1..], b.final));
      assert a.rounds == [round] + a.rounds[1..];
      assert b.rounds == [round] + b.rounds[1..];
    }
  }

  /** A correct run is the one the loop performs: there is no other. */
  lemma {:induction false} RunIsLoop(iteration: nat, start: Response, env: Env, history: seq<Effect>, run: Run)
    requires 1 <= iteration <= Iterations + 1
    requires IsRun(iteration, start, env, history, run)
    ensures run == Loop(iteration, start, env, history)
  {
    LoopIsRun(iteration, start, env, history);
    RunUnique(iteration, start, env, history, run, Loop(iteration, start, env, history));
  }

  /** The round-by-round description and the loop agree on every input:
      a run is correct if and only if it is the loop's run. */
  lemma {:induction false} LoopIffRun(start: Response, env: Env, history: seq<Effect>, run: Run)
    ensures IsRun(1, start, env, history, run) <==> run == Process(start, env, history)
  {
    LoopIsRun(1, start, env, history);
    if IsRun(1, start, env, history, run) {
      RunIsLoop(1, start, env, history, run);
    }
  }

  // ---------------------------------------------------------------------
  // The loop as the program writes it

  /** The effects of rounds followed by one more round. */
  lemma {:induction false} LogSnoc(rounds: seq<Round>, r: Round)
    ensures Log(rounds + [r]) == Log(rounds) + RoundEffects(r)
  {
    if rounds == [] {
      assert [] + [r] == [r];
    } else {
      assert (rounds + [r])[1..] == rounds[1..] + [r];
      LogSnoc(rounds[1..], r);
    }
  }

  /** Every round of `done` is correct. */
  predicate RoundsOk(start: Response, env: Env, history: seq<Effect>, done: seq<Round>)
  {
    forall i :: 0 <= i < |done| ==> RoundOk(start, env, history, done, i)
  }

  /** Whether a round is correct does not depend on the rounds after it. */
  lemma {:induction false} RoundOkExtend(start: Response, env: Env, history: seq<Effect>, rounds: seq<Round>, more: seq<Round>, i: nat)
    requires i < |rounds|
    ensures RoundOk(start, env, history, rounds, i) <==> RoundOk(start, env, history, rounds + more, i)
  {
    assert (rounds + more)[..i] == rounds[..i];
    assert ResponseAt(start, env, rounds, i) == ResponseAt(start, env, rounds + more, i);
  }

  /** Appending the round the loop performs next keeps every round correct. */
  lemma {:induction false} ExtendRounds(start: Response, env: Env, history: seq<Effect>, done: seq<Round>, call: Call)
    requires RoundsOk(start, env, history, done)
    requires FirstCall(ResponseAt(start, env, done, |done|).output) == Some(call)
    ensures
      var round := StepRound(ResponseAt(start, env, done, |done|), call, env, history + Log(done));
      && RoundsOk(start, env, history, done + [round])
      && ResponseAt(start, env, done + [round], |done| + 1) == env.model(round.request)
  {
    var round := StepRound(ResponseAt(start, env, done, |done|), call, env, history + Log(done));
    var done' := done + [round];
    forall i | 0 <= i < |done|
      ensures RoundOk(start, env, history, done', i)
    {
      RoundOkExtend(start, env, history, done, [round], i);
    }
    NextRoundOk(start, env, history, done, call);
  }

  /** The round the loop performs next is correct as the last round. */
  lemma {:induction false} NextRoundOk(start: Response, env: Env, history: seq<Effect>, done: seq<Round>, call: Call)
    requires FirstCall(ResponseAt(start, env, done, |done|).output) == Some(call)
    ensures
      var round := StepRound(ResponseAt(start, env, done, |done|), call, env, history + Log(done));
      RoundOk(start, env, history, done + [round], |done|)
  {
    var round := StepRound(ResponseAt(start, env, done, |done|), call, env, history + Log(done));
    var done' := done + [round];
    assert done'[..|done|] == done;
    assert ResponseAt(start, env, done', |done|) == ResponseAt(start, env, done, |done|);
  }

  /** The body of one round: act on `call`, take a screenshot, answer the
      call with it, and receive the next response. The effects are appended
      to `log` in the order they happen. */
  /** The loop as a counted iteration that appends each effect to a log as
      it happens and rebinds the held response after every model answer.
      It performs a correct run, and so exactly the run of `Process`. */
  method ProcessModelResponse(response: Response, env: Env, history: seq<Effect>)
    returns (log: seq<Effect>, final: Response)
    ensures log == Log(Process(response, env, history).rounds)
    ensures final == Process(response, env, history).final
  {
    var current := response;
    log := [];
    ghost var done: seq<Round> := [];
    var n := 0;
    while n < Iterations
      invariant n == |done| <= Iterations
      invariant RoundsOk(response, env, history, done)
      invariant log == Log(done)
      invariant current == ResponseAt(response, env, done, |done|)
    {
      var calls := ComputerCalls(current.output);
      if calls == [] {
        break;
      }
      var call := calls[0];
      ghost var round := StepRound(current, call, env, history + log);
      ExtendRounds(response, env, history, done, call);
      LogSnoc(done, round);
      ghost var before := log;
      log := log + HandleAction(call.action);
      assert history + before + HandleAction(call.action) == history + log;
      var token := env.capture(history + log);
      var request := FollowUpRequest(current.id, call.callId, token);
      log := log + [Screenshot(token), CreateResponse(request)];
      assert token == round.token && request == round.request;
      assert log == before + RoundEffects(round);
      current := env.model(request);
      done := done + [round];
      n := n + 1;
    }
    final := current;
    assert IsRun(1, response, env, history, Run(done, final));
    RunIsLoop(1, response, env, history, Run(done, final));
  }
}
