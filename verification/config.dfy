/** Fixed configuration of the agent: every value here is a startup constant
    of the program, never changed while it runs. */
module Config {

  /** Model identifier sent with every request to the model service. */
  const ModelName: string := "computer-use-preview"

  /** Viewport size declared to the model in the computer-use tool. */
  const DisplayWidth: int := 1024
  const DisplayHeight: int := 768

  /** The agent loop runs at most this many rounds. */
  const Iterations: nat := 5

  /** After a click the page is given this long to reach `LoadState`. */
  const LoadState: string := "domcontentloaded"
  const ClickSettleTimeoutMs: int := 3000

  /** Per-character delay used when typing text. */
  const TypeDelayMs: int := 20

  /** Page opened before the operator is asked for a task. */
  const StartUrl: string := "https://www.bing.com"

  /** Prefix of the inline image URL that carries a screenshot. */
  const ImageUrlPrefix: string := "data:image/png;base64,"

  /** Fields of the tool declaration and of every request. */
  const ToolKind: string := "computer_use_preview"
  const ToolEnvironment: string := "browser"
  const Truncation: string := "auto"

  /** Fields that only the first request carries. */
  const Instructions: string :=
    "You are an AI agent controlling a browser via Playwright. "
    + "After each action, take a screenshot to verify success. "
    + "When done, return control."
  const ReasoningSummary: string := "concise"

  /** Task text (compared after lower-casing) that ends the program before any model call. */
  const ExitSentinel: string := "exit"
}
