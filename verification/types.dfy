/** The data the agent loop passes around: model actions, model responses,
    requests to the model service and the effects the program has on the
    outside world. */
module Types {

  /** The type name of an action the executor does not handle: anything
      but the two it dispatches on. */
  type OtherActionKind = k: string | k != "click" && k != "type" witness "scroll"

  /** One UI action proposed by the model. `Unsupported` stands for every
      action type the executor does not handle (scroll, keypress, ...). */
  datatype Action =
    | Click(x: int, y: int)
    | TypeText(text: string)
    | Unsupported(kind: OtherActionKind)

  /** A `computer_call` output item: an action plus the id the reply must quote. */
  datatype Call = Call(callId: string, action: Action)

  /** The type name of an output item that is not a `computer_call`. */
  type OtherItemKind = k: string | k != "computer_call" witness "reasoning"

  /** One entry of a response's `output` list. `OtherItem` covers every item
      whose type is not `computer_call` (reasoning, message, ...). */
  datatype OutputItem =
    | ComputerCall(call: Call)
    | OtherItem(kind: OtherItemKind)

  /** A model response: its id (the continuation token) and its output items. */
  datatype Response = Response(id: string, output: seq<OutputItem>)

  /** The computer-use tool declaration sent with every request. */
  datatype Tool = Tool(kind: string, displayWidth: int, displayHeight: int, environment: string)

  /** A request to the model service. The first request carries the task
      and the instructions; every later one answers a call of the previous
      response, identified by `previousResponseId` and `callId`. */
  datatype Request =
    | Initial(model: string, tool: Tool, instructions: string, task: string,
              imageUrl: string, reasoningSummary: string, truncation: string)
    | FollowUp(model: string, previousResponseId: string, tool: Tool,
               callId: string, imageUrl: string, truncation: string)

  /** One observable effect of the program, in the order it happens:
      a browser operation or a request sent to the model service.
      A screenshot is recorded with the encoded image it produced. */
  datatype Effect =
    | Goto(url: string)
    | MouseClick(x: int, y: int)
    | WaitForLoadState(state: string, timeoutMs: int)
    | KeyboardType(text: string, delayMs: int)
    | Screenshot(token: string)
    | CreateResponse(request: Request)
}
