/** The action executor: turns one model action into browser operations. */
module Executor {
  import opened Wrappers
  import opened Config
  import opened Types

  /** The action kinds the executor acts on. */
  predicate Supported(a: Action) {
    a.Click? || a.TypeText?
  }

  /** An effect that acts on the page, as opposed to observing it or
      talking to the model. */
  predicate IsPageAction(e: Effect) {
    e.MouseClick? || e.WaitForLoadState? || e.KeyboardType?
  }

  /** The browser operations performed for action `a`, in order: a click
      at the given coordinates followed by a bounded wait for the page to
      settle, or the text typed at a fixed per-character delay; other
      action kinds do nothing. */
  function HandleAction(a: Action): (ops: seq<Effect>)
    ensures |ops| <= 2
    ensures ops == [] <==> !Supported(a)
    ensures forall i :: 0 <= i < |ops| ==> IsPageAction(ops[i])
    ensures a.Click? ==> ops[0] == MouseClick(a.x, a.y)
    ensures a.TypeText? ==> ops[0].KeyboardType? && ops[0].text == a.text
  {
    match a
    case Click(x, y) => [MouseClick(x, y), WaitForLoadState(LoadState, ClickSettleTimeoutMs)]
    case TypeText(text) => [KeyboardType(text, TypeDelayMs)]
    case Unsupported(_) => []
  }

  /** Reads back which supported action a list of browser operations
      performs, if it is the operation list of one. */
  function RecoverAction(ops: seq<Effect>): (a: Option<Action>)
    ensures a.Some? ==> Supported(a.value)
  {
    if |ops| == 2 && ops[0].MouseClick? && ops[1] == WaitForLoadState(LoadState, ClickSettleTimeoutMs) then
      Some(Click(ops[0].x, ops[0].y))
    else if |ops| == 1 && ops[0].KeyboardType? && ops[0].delayMs == TypeDelayMs then
      Some(TypeText(ops[0].text))
    else
      None
  }

  /** The operations of a supported action identify it exactly: click
      coordinates and typed text reach the browser unchanged, and no two
      supported actions produce the same operations. */
  lemma {:induction false} RecoverHandleAction(a: Action)
    ensures Supported(a) <==> RecoverAction(HandleAction(a)) == Some(a)
    ensures !Supported(a) ==> HandleAction(a) == []
  {
  }

  /** Conversely, every operation list that reads back as an action is
      exactly what the executor produces for it. */
  lemma {:induction false} HandleRecoveredAction(ops: seq<Effect>, a: Action)
    requires RecoverAction(ops) == Some(a)
    ensures HandleAction(a) == ops
  {
  }

  /** The exact operations of a click, a typed text and an unsupported action. */
  lemma {:induction false} ActionEffects(x: int, y: int, text: string, kind: OtherActionKind)
    ensures HandleAction(Click(x, y)) == [MouseClick(x, y), WaitForLoadState("domcontentloaded", 3000)]
    ensures HandleAction(TypeText(text)) == [KeyboardType(text, 20)]
    ensures HandleAction(Unsupported(kind)) == []
  {
  }
}
