/** The program's entry point: open the start page, read the operator's
    task, stop on the exit word, otherwise send the first request and hand
    the model's answer to the agent loop. */
module Session {
  import opened Wrappers
  import opened Config
  import opened Types
  import opened Capturer
  import opened Bridge
  import opened AgentLoop
  import opened LoopProperties

  /** Lower-casing of one character, for the ASCII letters. */
  function LowerChar(c: char): (d: char)
    ensures 'A' <= c <= 'Z' ==> d as int == c as int + 32
    ensures !('A' <= c <= 'Z') ==> d == c
    ensures !('A' <= d <= 'Z')
  {
    if 'A' <= c <= 'Z' then (c as int + 32) as char else c
  }

  /** Lower-casing of a string, character by character. */
  function Lower(s: string): (r: string)
    ensures |r| == |s|
    ensures forall i :: 0 <= i < |s| ==> r[i] == LowerChar(s[i])
  {
    if s == [] then [] else [LowerChar(s[0])] + Lower(s[1..])
  }

  /** Whether the operator asked to stop instead of giving a task. */
  predicate IsExit(task: string)
  {
    Lower(task) == ExitSentinel
  }

  /** A character lower-cases to a given lower-case letter exactly when it
      is that letter in either case. */
  lemma {:induction false} LowerCharIs(c: char, lower: char)
    requires 'a' <= lower <= 'z'
    ensures LowerChar(c) == lower <==> c == lower || c as int == lower as int - 32
  {
  }

  /** The exit word is recognised in any mix of upper and lower case, and
      nothing else is. */
  lemma {:induction false} ExitIffSpelling(task: string)
    ensures IsExit(task) <==>
      |task| == 4 && task[0] in "eE" && task[1] in "xX" && task[2] in "iI" && task[3] in "tT"
  {
    if |task| == 4 {
      LowerCharIs(task[0], 'e');
      LowerCharIs(task[1], 'x');
      LowerCharIs(task[2], 'i');
      LowerCharIs(task[3], 't');
      var l := Lower(task);
      assert l == ExitSentinel <==>
        l[0] == 'e' && l[1] == 'x' && l[2] == 'i' && l[3] == 't';
    } else {
      assert |Lower(task)| != |ExitSentinel|;
    }
  }

  /** What the program did and, when it asked the model, the model's last
      answer it holds. */
  datatype Outcome = Outcome(log: seq<Effect>, final: Option<Response>)

  /** The browser operation that opens the start page. */
  const Opening: seq<Effect> := [Goto(StartUrl)]

  /** The whole run of the program for operator input `task`. */
  function Start(task: string, env: Env): (o: Outcome)
    ensures |o.log| >= 1 && o.log[0] == Goto(StartUrl)
    ensures IsExit(task) <==> o.final == None
    ensures IsExit(task) ==> o.log == Opening
    ensures !IsExit(task) ==>
      var token := env.capture(Opening);
      |o.log| >= 3 && o.log[1] == Screenshot(token)
      && o.log[2] == CreateResponse(FirstRequest(task, token))
    ensures !IsExit(task) ==>
      var token := env.capture(Opening);
      var first := FirstRequest(task, token);
      var run := Process(env.model(first), env, Opening + [Screenshot(token), CreateResponse(first)]);
      o.log[3..] == Log(run.rounds) && o.final == Some(run.final)
  {
    if IsExit(task) then Outcome(Opening, None)
    else
      var token := env.capture(Opening);
      var first := FirstRequest(task, token);
      var seeded := Opening + [Screenshot(token), CreateResponse(first)];
      var run := Process(env.model(first), env, seeded);
      Outcome(seeded + Log(run.rounds), Some(run.final))
  }

  /** The requests of the program's start-up, the opening and the first
      request, are just the first request. */
  lemma {:induction false} SeedRequests(token: string, first: Request)
    ensures Requests(Opening + [Screenshot(token), CreateResponse(first)]) == [first]
  {
    var seed := [Screenshot(token), CreateResponse(first)];
    FiltersAppend(Opening, seed);
    assert Opening[1..] == [];
    assert seed[1..] == [CreateResponse(first)];
    assert seed[1..][1..] == [];
  }

  /** On the exit word the program never contacts the model and never
      takes a screenshot; otherwise it sends the first request carrying the
      task and at most `Iterations` follow-ups. */
  lemma {:induction false} StartRequests(task: string, env: Env)
    ensures var qs := Requests(Start(task, env).log);
      && (IsExit(task) ==> qs == [] && Screenshots(Start(task, env).log) == [])
      && (!IsExit(task) ==>
            1 <= |qs| <= Iterations + 1
            && qs[0] == FirstRequest(task, env.capture(Opening))
            && (forall i :: 1 <= i < |qs| ==> qs[i].FollowUp?))
  {
    if IsExit(task) {
      assert Opening[1..] == [];
    } else {
      var token := env.capture(Opening);
      var first := FirstRequest(task, token);
      var seeded := Opening + [Screenshot(token), CreateResponse(first)];
      var run := Process(env.model(first), env, seeded);
      SeedRequests(token, first);
      FiltersAppend(seeded, Log(run.rounds));
      AtMostIterations(env.model(first), env, seeded);
      LoopIffRun(env.model(first), env, seeded, run);
      RequestsThreadResponses(env.model(first), env, seeded, run);
    }
  }

  /** After a prefix whose one request is `first`, the requests of a
      correct run from the model's answer to it each answer the first call
      of the model's answer to the request before, and the run ends holding
      the answer to the last. */
  lemma {:induction false} ThreadAfterFirst(first: Request, env: Env, seeded: seq<Effect>, run: Run)
    requires Requests(seeded) == [first]
    requires IsRun(1, env.model(first), env, seeded, run)
    ensures var qs := Requests(seeded + Log(run.rounds));
      && |qs| >= 1
      && (forall i :: 1 <= i < |qs| ==>
            qs[i].FollowUp?
            && qs[i].previousResponseId == env.model(qs[i - 1]).id
            && Some(qs[i].callId) == CallIdOf(FirstCall(env.model(qs[i - 1]).output)))
      && run.final == env.model(qs[|qs| - 1])
  {
    var rest := Requests(Log(run.rounds));
    FiltersAppend(seeded, Log(run.rounds));
    var qs := [first] + rest;
    RequestsThreadResponses(env.model(first), env, seeded, run);
    forall i | 1 <= i < |qs|
      ensures qs[i].FollowUp?
      ensures qs[i].previousResponseId == env.model(qs[i - 1]).id
      ensures Some(qs[i].callId) == CallIdOf(FirstCall(env.model(qs[i - 1]).output))
    {
      assert qs[i] == rest[i - 1];
      if i > 1 {
        assert qs[i - 1] == rest[i - 2];
      }
    }
  }

  /** Each follow-up of the program answers the first call of the model's
      answer to the request before it, the first request included, and the
      program ends holding the answer to its last request. */
  lemma {:induction false} StartThreadsResponses(task: string, env: Env)
    requires !IsExit(task)
    ensures var qs := Requests(Start(task, env).log);
      && |qs| >= 1
      && (forall i :: 1 <= i < |qs| ==>
            qs[i].FollowUp?
            && qs[i].previousResponseId == env.model(qs[i - 1]).id
            && Some(qs[i].callId) == CallIdOf(FirstCall(env.model(qs[i - 1]).output)))
      && Start(task, env).final == Some(env.model(qs[|qs| - 1]))
  {
    var token := env.capture(Opening);
    var first := FirstRequest(task, token);
    var seeded := Opening + [Screenshot(token), CreateResponse(first)];
    var run := Process(env.model(first), env, seeded);
    assert Start(task, env) == Outcome(seeded + Log(run.rounds), Some(run.final));
    SeedRequests(token, first);
    LoopIffRun(env.model(first), env, seeded, run);
    ThreadAfterFirst(first, env, seeded, run);
  }

  /** Across the whole program every request is sent right after a
      screenshot and carries it, and every screenshot shows the page after
      everything the program did before it. */
  lemma {:induction false} StartOrder(task: string, env: Env)
    ensures RequestsFollowScreenshots(Start(task, env).log)
    ensures ScreenshotsShowPast(env, [], Start(task, env).log)
  {
    if !IsExit(task) {
      var token := env.capture(Opening);
      var first := FirstRequest(task, token);
      var seeded := Opening + [Screenshot(token), CreateResponse(first)];
      var run := Process(env.model(first), env, seeded);
      EffectOrder(env.model(first), env, seeded);
      assert [] + Opening == Opening;
      assert [] + seeded == seeded;
      PrependSegmentOrdered(env, [], Opening, token, first, Log(run.rounds));
    }
  }
}
