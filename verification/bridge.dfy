/** The response bridge: the requests the program sends to the model service. */
module Bridge {
  import opened Config
  import opened Types
  import opened Capturer

  /** The tool declaration every request carries. */
  const ComputerTool: Tool := Tool(ToolKind, DisplayWidth, DisplayHeight, ToolEnvironment)

  /** The first request: the operator's task and the seed screenshot. */
  function FirstRequest(task: string, token: string): (q: Request)
    ensures q.Initial? && q.task == task && q.imageUrl == ImageUrl(token)
    ensures q.model == ModelName && q.tool == ComputerTool && q.truncation == Truncation
    ensures q.instructions == Instructions && q.reasoningSummary == ReasoningSummary
  {
    Initial(ModelName, ComputerTool, Instructions, task, ImageUrl(token), ReasoningSummary, Truncation)
  }

  /** The reply to call `callId` of response `previousId`, carrying the
      screenshot taken after the call's action. */
  function FollowUpRequest(previousId: string, callId: string, token: string): (q: Request)
    ensures q.FollowUp? && q.previousResponseId == previousId && q.callId == callId
    ensures q.imageUrl == ImageUrl(token)
    ensures q.model == ModelName && q.tool == ComputerTool && q.truncation == Truncation
  {
    FollowUp(ModelName, previousId, ComputerTool, callId, ImageUrl(token), Truncation)
  }

  /** A follow-up request determines the response, the call and the
      screenshot it answers with. */
  lemma {:induction false} FollowUpRequestInjective(p: string, c: string, t: string, p': string, c': string, t': string)
    requires FollowUpRequest(p, c, t) == FollowUpRequest(p', c', t')
    ensures p == p' && c == c' && t == t'
  {
    ImageUrlInjective(t, t');
  }
}
