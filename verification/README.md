# Browser agent loop — a Dafny model

This project models the core of a small computer-use agent. The agent opens a
headless browser on a start page and reads a task from the operator. Unless the
task is the word `exit` in any letter case, it sends the task and a screenshot
to a model service. It then runs a bounded loop. Each round takes the first
`computer_call` of the model's latest response and performs its action on the
page: a click followed by a wait for the page to settle, or typed text. It then
takes a screenshot and sends it back as the output of that call, and the
model's answer becomes the next response. The loop stops when a response holds
no `computer_call` or after five rounds.

The repository ships this core twice, in `comp_use_003.py` and
`john_computer_use.py`. The two copies differ in logging and in loop-index
style. `AgentLoop.Loop` follows the counted loop of the first file.
`AgentLoop.ProcessModelResponse` follows the `range` loop of the second and is
proved to compute the same thing.

The outside world is a parameter, `AgentLoop.Env`:
- The model service is an arbitrary function from a request to a response.
- A screenshot is an arbitrary function of everything done so far. Screenshots
  are opaque encoded tokens.

What the program does is an ordered log of `Types.Effect`s: browser operations,
screenshots and model requests. Every property is proved for every model
service and every page.

Modules:
- `Config`: the program's constants.
- `Types`: actions, output items, responses, requests and effects.
- `Executor`: the action handler.
- `Capturer`: the image URL that carries a screenshot.
- `Bridge`: the two request shapes.
- `AgentLoop`: the loop. It is written both as a recursive function and as a
  round-by-round description of a correct run, proved equivalent.
- `LoopProperties`: what an observer of the loop sees.
- `Session`: the program from the start page to the end of the loop.

## Model

| member | source | states |
|---|---|---|
| `Executor.HandleAction` | comp_use_003.py:31-42 | A click or a typed text gives one or two page operations. The first is the click at the action's coordinates or the typing of the action's text. Any other action kind gives no operation at all. |
| `Executor.RecoverHandleAction` | comp_use_003.py:34-41 | The operations of a supported action identify that action exactly, so coordinates and text reach the browser unchanged. An unsupported action does nothing. |
| `Executor.HandleRecoveredAction` | john_computer_use.py:26-34 | Every operation list that reads back as an action is exactly what the handler produces for that action. |
| `Executor.ActionEffects` | john_computer_use.py:28-33 | A click is a mouse click followed by a `domcontentloaded` wait with a 3000 ms timeout. A type is one keyboard-type call with a 20 ms delay. Any other kind gives the empty list. |
| `Capturer.ImageUrl` | comp_use_003.py:74 | The image URL is the `data:image/png;base64,` prefix followed by the screenshot token, unchanged. |
| `Capturer.TokenOf` | comp_use_003.py:74 | A URL carries a token exactly when it starts with the image prefix. |
| `Capturer.TokenOfImageUrl` | john_computer_use.py:58 | Reading the token back from an image URL gives the screenshot it was built from. |
| `Capturer.ImageUrlOfToken` | john_computer_use.py:58 | Every URL that reads back as a token is that token's image URL. |
| `Capturer.ImageUrlInjective` | comp_use_003.py:74 | Different screenshots are sent as different image URLs. |
| `Bridge.FirstRequest` | comp_use_003.py:119-141 | The first request carries the operator's task unchanged and the seed screenshot. It also carries the model name, the computer-use tool at 1024x768 in a browser environment, the fixed instructions, a concise reasoning summary and automatic truncation. |
| `Bridge.FollowUpRequest` | comp_use_003.py:60-78 | A follow-up request quotes the previous response's id and the call's id. It carries the screenshot and the same model, tool and truncation. |
| `Bridge.FollowUpRequestInjective` | john_computer_use.py:46-62 | A follow-up request determines the response, the call and the screenshot it answers with. |
| `AgentLoop.ComputerCalls` | comp_use_003.py:48 | A call is kept exactly when it occurs as a `computer_call` item of the output, and there are no more calls than output items. |
| `AgentLoop.ComputerCallsSingle` | comp_use_003.py:48 | A `computer_call` item is kept as its call, and any other item is dropped. |
| `AgentLoop.ComputerCallsAppend` | comp_use_003.py:48 | Filtering a concatenation gives the filtered parts in order. Together with `ComputerCallsSingle`, this means the filter keeps every call in output order, repetitions included. |
| `AgentLoop.FirstCall` | comp_use_003.py:48-53 | There is no first call exactly when no output item is a `computer_call`. Otherwise the first call is one of the output's calls. |
| `AgentLoop.FirstCallIsEarliest` | john_computer_use.py:40-43 | The call acted on is the one at the earliest `computer_call` position of the output. |
| `AgentLoop.Loop` | comp_use_003.py:44-81 | The loop runs no more rounds than the iterations left. It runs none exactly when the budget is spent or the response holds no call, and in that case it keeps the response. |
| `AgentLoop.LoopIffRun` | comp_use_003.py:47-78 | A run is the loop's run exactly when it is a correct run. In a correct run, round i acts on the first call of the i-th response and screenshots the page after everything done before. It then asks the model with that screenshot, and the answer becomes response i+1. The run ends with the last answer, and ends early only on a response without calls. |
| `AgentLoop.LoopIsRun` | comp_use_003.py:47-78 | The loop's run is a correct run. |
| `AgentLoop.RunIsLoop` | comp_use_003.py:47-78 | Every correct run is the loop's run, so a correct run is unique. |
| `AgentLoop.RunUnique` | john_computer_use.py:39-62 | Two correct runs from the same response, history and round number are equal: the loop's behaviour is determined by the model's answers and the page. |
| `AgentLoop.ProcessModelResponse` | john_computer_use.py:36-63 | The imperative `range` loop produces the same log and ends with the same response as the counted loop. |
| `LoopProperties.FiltersAppend` | comp_use_003.py:47-78 | A step towards `RunFilters` and `AtMostIterations`: the requests, screenshots and page operations of a concatenated log are those of its parts, in order. |
| `LoopProperties.RoundFilters` | comp_use_003.py:53-78 | Each round sends exactly its own request and takes exactly its own screenshot. It performs at most two page operations. |
| `LoopProperties.RunFilters` | john_computer_use.py:39-62 | A run sends one request and takes one screenshot per round, in round order. |
| `LoopProperties.AtMostIterations` | comp_use_003.py:47 | Whatever the model answers, the loop runs at most five rounds. It makes at most five requests and five screenshots, and at most ten page operations. |
| `LoopProperties.NoCallStopsAtOnce` | comp_use_003.py:48-51 | The loop does nothing at all exactly when the response holds no `computer_call`. In that case it keeps the response. |
| `LoopProperties.FirstCallWins` | comp_use_003.py:48-55 | In a correct run every round acts on the first `computer_call` of its response, and its page operations are exactly that call's. The first round holds the initial response. Every later round holds the answer to the previous request. |
| `LoopProperties.RequestsThreadResponses` | comp_use_003.py:60-78 | Every request is a follow-up. The first quotes the initial response's id and its first call's id. Each later one quotes the id and first call id of the answer to the one before. The run ends holding the answer to the last request. |
| `LoopProperties.FullBudgetWhenModelKeepsCalling` | comp_use_003.py:47-78 | When the model always answers with a `computer_call`, the loop runs exactly five rounds, requests and screenshots. |
| `LoopProperties.RoundsOkTail` | comp_use_003.py:55-78 | A step towards `ScreenshotThenRequest`: the rounds after a correct first round are correct, starting from the first round's answer, as the loop rebinds the response at comp_use_003.py:60. |
| `LoopProperties.PrependSegmentOrdered` | comp_use_003.py:55-74 | A step towards `ScreenshotThenRequest` and `Session.StartOrder`: page operations, a screenshot of the page after them, and a request carrying that screenshot keep an ordered log ordered when put in front of it. |
| `LoopProperties.PrependRoundOrdered` | comp_use_003.py:55-74 | A step towards `ScreenshotThenRequest`: one round's effects keep an ordered log ordered when put in front of it. |
| `LoopProperties.ScreenshotThenRequest` | comp_use_003.py:55-74 | Every request is sent right after a screenshot and carries it as its image URL. Every screenshot is followed by a request and shows the page after everything done before it, including its round's action. |
| `LoopProperties.EffectOrder` | john_computer_use.py:43-58 | The same order holds for the loop's own run. |
| `Session.LowerChar` | comp_use_003.py:113 | Upper-case ASCII letters become lower case and every other character is kept. The result is never an upper-case letter. |
| `Session.Lower` | john_computer_use.py:85 | Lower-casing keeps the length and lower-cases each character in place. |
| `Session.LowerCharIs` | comp_use_003.py:113 | A character lower-cases to a given letter exactly when it is that letter in either case. |
| `Session.ExitIffSpelling` | comp_use_003.py:112-115 | A task means exit exactly when it is four characters spelling `exit` in any mix of cases. |
| `Session.Start` | comp_use_003.py:107-145 | The program first opens the start page. It stops without a model answer exactly on the exit word, with nothing done after opening the page. Otherwise it screenshots the opened page and sends the first request with the task and that screenshot. It then runs the loop from the model's answer to that request, and the rest of the log is that loop's log. |
| `Session.StartRequests` | john_computer_use.py:83-111 | On the exit word there is no request and no screenshot. Otherwise the first request carries the task, and at most five follow-ups come after it. |
| `Session.StartThreadsResponses` | comp_use_003.py:119-145 | Each follow-up answers the first call of the model's answer to the request before it, starting with the first request. The program ends holding the model's answer to its last request. |
| `Session.StartOrder` | comp_use_003.py:109-145 | Across the whole program every request comes right after a screenshot and carries it. Every screenshot shows the page after everything done before it. |

## Left out

- The model service and the browser are parameters, not implementations. The network client, API-key handling, the browser launch, the context, the viewport and the page event handlers are not modelled.
- Encoding screenshot bytes in base64 is a library call. A screenshot is its encoded token.
- Logging, and starting and stopping the trace, are not modelled: they write files and do not change what the agent does.
- Browser shutdown is not modelled. On the exit word the first file closes the browser and the second does not. Both close it after the loop.
- Asynchronous scheduling is not modelled because the loop is strictly sequential. The `await` on the synchronous request call at john_computer_use.py:46 is not modelled either.
- Executor.HandleAction: coordinates are integers. The source's `int(...)` truncation of fractional coordinates is not modelled.
- Session.LowerChar, Session.Lower: only ASCII letters are lower-cased. For the exit comparison this is exact, because no other character lower-cases to the letters of `exit`.
- Failures are not modelled. A settle wait that times out raises `TimeoutError`, and nothing catches it (comp_use_003.py:8,37). Nothing guards the shutdown with `try`/`finally` (comp_use_003.py:148-151). The model covers only runs in which no browser call fails.
- Click coordinates are passed through without a bounds check, in the code and in the model.
- computer_use_play.py is not part of this model: it only wraps screenshotting and directory listing as agent tools.
