/** What an observer of the program sees of the agent loop: the browser
    operations and model requests it issues, in order. Every property is
    stated for an arbitrary model service and an arbitrary page. */
module LoopProperties {
  import opened Wrappers
  import opened Config
  import opened Types
  import opened Executor
  import opened Capturer
  import opened Bridge
  import opened AgentLoop

  /** The requests sent to the model service, in the order sent. */
  function Requests(log: seq<Effect>): (qs: seq<Request>)
    ensures |qs| <= |log|
    ensures forall q :: q in qs <==> CreateResponse(q) in log
  {
    if log == [] then []
    else if log[0].CreateResponse? then [log[0].request] + Requests(log[1..])
    else Requests(log[1..])
  }

  /** The screenshots taken, in the order taken. */
  function Screenshots(log: seq<Effect>): (tokens: seq<string>)
    ensures |tokens| <= |log|
    ensures forall t :: t in tokens <==> Screenshot(t) in log
  {
    if log == [] then []
    else if log[0].Screenshot? then [log[0].token] + Screenshots(log[1..])
    else Screenshots(log[1..])
  }

  /** The number of page actions (clicks, settle waits, keystroke runs). */
  function PageActions(log: seq<Effect>): (n: nat)
    ensures n <= |log|
  {
    if log == [] then 0
    else (if IsPageAction(log[0]) then 1 else 0) + PageActions(log[1..])
  }

  lemma {:induction false} FiltersAppend(a: seq<Effect>, b: seq<Effect>)
    ensures Requests(a + b) == Requests(a) + Requests(b)
    ensures Screenshots(a + b) == Screenshots(a) + Screenshots(b)
    ensures PageActions(a + b) == PageActions(a) + PageActions(b)
  {
    if a == [] {
      assert a + b == b;
    } else {
      assert (a + b)[1..] == a[1..] + b;
      FiltersAppend(a[1..], b);
    }
  }

  /** Each round sends exactly its own request and takes exactly its own
      screenshot, and performs at most two page actions. */
  lemma {:induction false} RoundFilters(r: Round)
    ensures Requests(RoundEffects(r)) == [r.request]
    ensures Screenshots(RoundEffects(r)) == [r.token]
    ensures PageActions(RoundEffects(r)) == |HandleAction(r.call.action)| <= 2
  {
    var ops := HandleAction(r.call.action);
    var tail := [Screenshot(r.token), CreateResponse(r.request)];
    FiltersAppend(ops, tail);
    assert Requests(ops) == [] && Screenshots(ops) == [] && PageActions(ops) == |ops| by {
      if ops != [] {
        assert ops[1..] == [] || (|ops| == 2 && ops[1..] == [ops[1]]);
      }
    }
    assert tail[1..] == [CreateResponse(r.request)];
    assert tail[1..][1..] == [];
  }

  /** The requests of a run are its rounds' requests, one per round, in
      order, and likewise the screenshots. */
  lemma {:induction false} RunFilters(rounds: seq<Round>)
    ensures |Requests(Log(rounds))| == |rounds| == |Screenshots(Log(rounds))|
    ensures forall i :: 0 <= i < |rounds| ==> Requests(Log(rounds))[i] == rounds[i].request
    ensures forall i :: 0 <= i < |rounds| ==> Screenshots(Log(rounds))[i] == rounds[i].token
    ensures PageActions(Log(rounds)) <= 2 * |rounds|
  {
    if rounds != [] {
      var r := rounds[0];
      var rest := Log(rounds[1..]);
      RunFilters(rounds[1..]);
      RoundFilters(r);
      assert Log(rounds) == RoundEffects(r) + rest;
      FiltersAppend(RoundEffects(r), rest);
      var qs := Requests(Log(rounds));
      var ts := Screenshots(Log(rounds));
      assert qs == [r.request] + Requests(rest);
      assert ts == [r.token] + Screenshots(rest);
      forall i | 0 < i < |rounds|
        ensures qs[i] == rounds[i].request && ts[i] == rounds[i].token
      {
        assert qs[i] == Requests(rest)[i - 1] && ts[i] == Screenshots(rest)[i - 1];
        assert rounds[1..][i - 1] == rounds[i];
      }
    }
  }

  /** The rounds after the first of correct rounds are correct, from the
      first round's answer and after the first round's effects. */
  lemma {:induction false} RoundsOkTail(start: Response, env: Env, history: seq<Effect>, rounds: seq<Round>)
    requires |rounds| >= 1
    requires RoundsOk(start, env, history, rounds)
    ensures RoundsOk(env.model(rounds[0].request), env, history + RoundEffects(rounds[0]), rounds[1..])
  {
    forall i | 0 <= i < |rounds| - 1
      ensures RoundOk(env.model(rounds[0].request), env, history + RoundEffects(rounds[0]), rounds[1..], i)
    {
      ShiftRoundOk(start, env, history, rounds, i);
    }
  }

  /** The loop makes at most `Iterations` model requests, takes at most
      `Iterations` screenshots and acts on at most `Iterations` calls,
      whatever the model answers. */
  lemma {:induction false} AtMostIterations(start: Response, env: Env, history: seq<Effect>)
    ensures var run := Process(start, env, history);
      && |run.rounds| <= Iterations
      && |Requests(Log(run.rounds))| <= Iterations
      && |Screenshots(Log(run.rounds))| <= Iterations
      && PageActions(Log(run.rounds)) <= 2 * Iterations
  {
    RunFilters(Process(start, env, history).rounds);
  }

  /** A response without `computer_call` items ends the loop at once: no
      browser operation, no screenshot, no request, and the response is
      kept; and only such a response does. */
  lemma {:induction false} NoCallStopsAtOnce(start: Response, env: Env, history: seq<Effect>)
    ensures FirstCall(start.output) == None <==> Log(Process(start, env, history).rounds) == []
    ensures FirstCall(start.output) == None ==> Process(start, env, history).final == start
  {
    var rounds := Process(start, env, history).rounds;
    if rounds != [] {
      assert |Log(rounds)| >= |RoundEffects(rounds[0])| >= 2;
    }
  }

  /** In a correct run every round acts on the first `computer_call` of the
      response it holds and on nothing else: the browser operations of a
      round are exactly those of that call's action. The first round holds
      the initial response; every later round holds the model's answer to
      the request before it. */
  lemma {:induction false} FirstCallWins(start: Response, env: Env, history: seq<Effect>, run: Run)
    requires IsRun(1, start, env, history, run)
    ensures var rounds := run.rounds;
      && (|rounds| > 0 ==> rounds[0].response == start)
      && (forall i :: 0 < i < |rounds| ==> rounds[i].response == env.model(rounds[i - 1].request))
      && (forall i :: 0 <= i < |rounds| ==>
            var calls := ComputerCalls(rounds[i].response.output);
            calls != [] && rounds[i].call == calls[0]
            && RoundEffects(rounds[i])[..|HandleAction(calls[0].action)|] == HandleAction(calls[0].action))
  {
    forall i | 0 <= i < |run.rounds|
      ensures ComputerCalls(run.rounds[i].response.output) != []
      ensures run.rounds[i].call == ComputerCalls(run.rounds[i].response.output)[0]
    {
      assert RoundOk(start, env, history, run.rounds, i);
    }
    forall i | 0 < i < |run.rounds|
      ensures run.rounds[i].response == env.model(run.rounds[i - 1].request)
    {
      assert RoundOk(start, env, history, run.rounds, i);
    }
    if |run.rounds| > 0 {
      assert RoundOk(start, env, history, run.rounds, 0);
    }
  }

  /** The id of a call, if there is one. */
  function CallIdOf(call: Option<Call>): Option<string>
  {
    if call.Some? then Some(call.value.callId) else None
  }

  /** Round `i`'s request is a follow-up quoting the id and the first call
      id of the response the round holds. */
  predicate Quotes(start: Response, env: Env, rounds: seq<Round>, i: nat)
    requires i < |rounds|
  {
    var q := rounds[i].request;
    var held := ResponseAt(start, env, rounds, i);
    q.FollowUp? && q.previousResponseId == held.id && Some(q.callId) == CallIdOf(FirstCall(held.output))
  }

  /** Every correct round's request quotes the response it holds. */
  lemma {:induction false} RoundRequestsQuote(start: Response, env: Env, history: seq<Effect>, rounds: seq<Round>)
    requires RoundsOk(start, env, history, rounds)
    ensures forall i :: 0 <= i < |rounds| ==> Quotes(start, env, rounds, i)
  {
    forall i | 0 <= i < |rounds|
      ensures Quotes(start, env, rounds, i)
    {
      assert RoundOk(start, env, history, rounds, i);
    }
  }

  /** The requests of a correct run thread the conversation: the first one
      quotes the initial response's id, each later one quotes the id of the
      model's answer to the one before, each quotes the id of the first
      call of the response it answers, and the run ends holding the answer
      to the last one. */
  lemma {:induction false} RequestsThreadResponses(start: Response, env: Env, history: seq<Effect>, run: Run)
    requires IsRun(1, start, env, history, run)
    ensures var qs := Requests(Log(run.rounds));
      && (forall i :: 0 <= i < |qs| ==> qs[i].FollowUp?)
      && (|qs| > 0 ==> qs[0].previousResponseId == start.id
                       && Some(qs[0].callId) == CallIdOf(FirstCall(start.output)))
      && (forall i :: 0 < i < |qs| ==>
            qs[i].previousResponseId == env.model(qs[i - 1]).id
            && Some(qs[i].callId) == CallIdOf(FirstCall(env.model(qs[i - 1]).output)))
      && run.final == (if |qs| == 0 then start else env.model(qs[|qs| - 1]))
  {
    assert RoundsOk(start, env, history, run.rounds);
    RoundRequestsQuote(start, env, history, run.rounds);
    QuotesThread(start, env, run);
  }

  /** Rounds whose requests quote the responses they hold send requests
      that thread the conversation. */
  lemma {:induction false} QuotesThread(start: Response, env: Env, run: Run)
    requires forall i :: 0 <= i < |run.rounds| ==> Quotes(start, env, run.rounds, i)
    requires run.final == ResponseAt(start, env, run.rounds, |run.rounds|)
    ensures var qs := Requests(Log(run.rounds));
      && (forall i :: 0 <= i < |qs| ==> qs[i].FollowUp?)
      && (|qs| > 0 ==> qs[0].previousResponseId == start.id
                       && Some(qs[0].callId) == CallIdOf(FirstCall(start.output)))
      && (forall i :: 0 < i < |qs| ==>
            qs[i].previousResponseId == env.model(qs[i - 1]).id
            && Some(qs[i].callId) == CallIdOf(FirstCall(env.model(qs[i - 1]).output)))
      && run.final == (if |qs| == 0 then start else env.model(qs[|qs| - 1]))
  {
    var rounds := run.rounds;
    var qs := Requests(Log(rounds));
    RunFilters(rounds);
    forall i | 0 <= i < |qs|
      ensures qs[i].FollowUp?
    {
      assert qs[i] == rounds[i].request;
      assert Quotes(start, env, rounds, i);
    }
    if |qs| > 0 {
      assert qs[0] == rounds[0].request;
      assert Quotes(start, env, rounds, 0);
      assert qs[|qs| - 1] == rounds[|rounds| - 1].request;
    }
    forall i | 0 < i < |qs|
      ensures qs[i].previousResponseId == env.model(qs[i - 1]).id
      ensures Some(qs[i].callId) == CallIdOf(FirstCall(env.model(qs[i - 1]).output))
    {
      assert qs[i] == rounds[i].request && qs[i - 1] == rounds[i - 1].request;
      assert Quotes(start, env, rounds, i);
    }
  }

  /** When the model always answers with a `computer_call`, the loop uses
      the whole budget: exactly `Iterations` rounds, requests and
      screenshots. */
  lemma {:induction false} FullBudgetWhenModelKeepsCalling(start: Response, env: Env, history: seq<Effect>)
    requires FirstCall(start.output).Some?
    requires forall q :: FirstCall(env.model(q).output).Some?
    ensures |Process(start, env, history).rounds| == Iterations
    ensures |Requests(Log(Process(start, env, history).rounds))| == Iterations
    ensures |Screenshots(Log(Process(start, env, history).rounds))| == Iterations
  {
    var run := Process(start, env, history);
    LoopIffRun(start, env, history, run);
    RunFilters(run.rounds);
  }

  /** Every request in `log` is sent right after a screenshot and carries
      that screenshot as its image URL. */
  predicate RequestsFollowScreenshots(log: seq<Effect>)
  {
    forall i :: 0 <= i < |log| && log[i].CreateResponse? ==>
      0 < i && log[i - 1].Screenshot? && log[i].request.imageUrl == ImageUrl(log[i - 1].token)
  }

  /** Every screenshot in `log` is followed by a request and shows the page
      after `history` and everything in `log` before it. */
  predicate ScreenshotsShowPast(env: Env, history: seq<Effect>, log: seq<Effect>)
  {
    forall i :: 0 <= i < |log| && log[i].Screenshot? ==>
      i + 1 < |log| && log[i + 1].CreateResponse? && log[i].token == env.capture(history + log[..i])
  }

  /** Effects that neither take a screenshot nor talk to the model. */
  predicate Quiet(ops: seq<Effect>)
  {
    forall i :: 0 <= i < |ops| ==> !ops[i].Screenshot? && !ops[i].CreateResponse?
  }

  /** Quiet effects, a screenshot of the page after them and a request
      carrying that screenshot, put in front of an ordered log, keep it
      ordered. */
  lemma {:induction false} PrependSegmentOrdered(env: Env, history: seq<Effect>, ops: seq<Effect>, token: string, request: Request, rest: seq<Effect>)
    requires Quiet(ops)
    requires token == env.capture(history + ops)
    requires request.imageUrl == ImageUrl(token)
    requires RequestsFollowScreenshots(rest)
    requires ScreenshotsShowPast(env, history + (ops + [Screenshot(token), CreateResponse(request)]), rest)
    ensures RequestsFollowScreenshots(ops + [Screenshot(token), CreateResponse(request)] + rest)
    ensures ScreenshotsShowPast(env, history, ops + [Screenshot(token), CreateResponse(request)] + rest)
  {
    var head := ops + [Screenshot(token), CreateResponse(request)];
    var log := head + rest;
    var k := |ops|;
    assert |head| == k + 2;
    assert log[k] == Screenshot(token) && log[k + 1] == CreateResponse(request);
    assert log[..k] == ops;
    forall i | 0 <= i < |log| && log[i].CreateResponse?
      ensures 0 < i && log[i - 1].Screenshot? && log[i].request.imageUrl == ImageUrl(log[i - 1].token)
    {
      if i >= |head| {
        assert rest[i - |head|].CreateResponse?;
        assert log[i - 1] == rest[i - 1 - |head|];
      }
    }
    forall i | 0 <= i < |log| && log[i].Screenshot?
      ensures i + 1 < |log| && log[i + 1].CreateResponse? && log[i].token == env.capture(history + log[..i])
    {
      if i >= |head| {
        assert rest[i - |head|].Screenshot?;
        assert log[i + 1] == rest[i + 1 - |head|];
        assert log[..i] == head + rest[..i - |head|];
        assert history + log[..i] == history + head + rest[..i - |head|];
      }
    }
  }

  /** One round's effects, put in front of an ordered log, keep it ordered. */
  lemma {:induction false} PrependRoundOrdered(env: Env, history: seq<Effect>, round: Round, rest: seq<Effect>)
    requires round.token == env.capture(history + HandleAction(round.call.action))
    requires round.request.imageUrl == ImageUrl(round.token)
    requires RequestsFollowScreenshots(rest)
    requires ScreenshotsShowPast(env, history + RoundEffects(round), rest)
    ensures RequestsFollowScreenshots(RoundEffects(round) + rest)
    ensures ScreenshotsShowPast(env, history, RoundEffects(round) + rest)
  {
    var ops := HandleAction(round.call.action);
    assert Quiet(ops) by {
      forall i | 0 <= i < |ops| ensures !ops[i].Screenshot? && !ops[i].CreateResponse? {
        assert IsPageAction(ops[i]);
      }
    }
    PrependSegmentOrdered(env, history, ops, round.token, round.request, rest);
  }

  /** In the log of correct rounds, every request is sent right after a
      screenshot and carries that screenshot as its image URL, and every
      screenshot shows the page after everything done before it, in
      particular after the action of its round. */
  lemma {:induction false} ScreenshotThenRequest(start: Response, env: Env, history: seq<Effect>, rounds: seq<Round>)
    requires RoundsOk(start, env, history, rounds)
    decreases |rounds|
    ensures RequestsFollowScreenshots(Log(rounds))
    ensures ScreenshotsShowPast(env, history, Log(rounds))
  {
    if rounds != [] {
      var round := rounds[0];
      RoundsOkTail(start, env, history, rounds);
      ScreenshotThenRequest(env.model(round.request), env, history + RoundEffects(round), rounds[1..]);
      assert RoundOk(start, env, history, rounds, 0);
      assert rounds[..0] == [];
      assert history + Log(rounds[..0]) == history;
      assert rounds == [round] + rounds[1..];
      LogCons(round, rounds[1..]);
      PrependRoundOrdered(env, history, round, Log(rounds[1..]));
    }
  }

  /** The ordering of screenshots and requests holds for the loop's run. */
  lemma {:induction false} EffectOrder(start: Response, env: Env, history: seq<Effect>)
    ensures RequestsFollowScreenshots(Log(Process(start, env, history).rounds))
    ensures ScreenshotsShowPast(env, history, Log(Process(start, env, history).rounds))
  {
    var run := Process(start, env, history);
    LoopIffRun(start, env, history, run);
    ScreenshotThenRequest(start, env, history, run.rounds);
  }
}
