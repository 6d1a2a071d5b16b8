/** The provider-independent values that the response parsers produce. */
module Llm {

  datatype ToolCall = ToolCall(name: string, input: string)

  datatype TokenUsage = TokenUsage(input: int, output: int, cacheRead: int, cacheWrite: int)

  const NO_USAGE := TokenUsage(0, 0, 0, 0)

  /** Why a response body has no parse. */
  datatype ParseError = BadJson | LineTooLong

  datatype Outcome<+R> = Parsed(result: R) | Failed(error: ParseError)

  /** The JSON text stored for a tool call whose arguments came out empty. */
  const NO_INPUT := "{}"

  function OrNoInput(args: string): string {
    if args == "" then NO_INPUT else args
  }

  /** The two texts are the same arguments: no arguments and "{}" are. */
  predicate SameInput(a: string, b: string) {
    a == b || ((a == "" || a == "{}") && (b == "" || b == "{}"))
  }
}
