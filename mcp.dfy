/**
 * The synchronous core of the MCP tool server (`src/mcp.rs`): reading the
 * strategy parameter and the order in which the tool handlers reject a
 * request.
 */
module Mcp {
  import opened Wrappers
  import opened Codebank

  const StrategyHint: string := ". Available strategies: default, summary, no-tests"

  /** `parse_strategy`: the three strategy names; anything else is an error naming them. */
  function ParseStrategy(s: string): (r: Result<BankStrategy, string>)
    ensures r.Ok? <==> s in {"default", "summary", "no-tests"}
    ensures r.Err? ==> r.error == "Invalid strategy: " + s + StrategyHint
  {
    match s
    case "default" => Ok(Default)
    case "summary" => Ok(Summary)
    case "no-tests" => Ok(NoTests)
    case _ => Err("Invalid strategy: " + s + StrategyHint)
  }

  /** The name each strategy is requested by. */
  function StrategyName(b: BankStrategy): string
  {
    match b
    case Default => "default"
    case Summary => "summary"
    case NoTests => "no-tests"
  }

  /** Every strategy is reached, by its own name. */
  lemma ParseStrategyName(b: BankStrategy)
    ensures ParseStrategy(StrategyName(b)) == Ok(b)
  {
  }

  /** No two names select the same strategy. */
  lemma ParseStrategyInjective(s: string, t: string)
    requires ParseStrategy(s).Ok? && ParseStrategy(s) == ParseStrategy(t)
    ensures s == t
  {
  }

  /** An accepted name is the name of the strategy it selects. */
  lemma ParseStrategyNamed(s: string)
    requires ParseStrategy(s).Ok?
    ensures StrategyName(ParseStrategy(s).value) == s
  {
  }

  /** Names differing only in case are refused. */
  lemma CaseVariantsRefused()
    ensures ParseStrategy("Default").Err? && ParseStrategy("SUMMARY").Err? && ParseStrategy("No-Tests").Err?
  {
  }

  datatype ErrorCode = InvalidParams | InternalError

  datatype McpError = McpError(code: ErrorCode, message: string)

  /**
   * The `generate` tool: a missing path is refused before the strategy is
   * read, an unknown strategy is refused as invalid parameters, and failures
   * to start or to generate become internal errors. `start` and `generate`
   * stand for `CodeBank::try_new` and `Bank::generate`.
   */
  function HandleGenerate(pathExists: bool, path: string, strategy: string, start: Result<(), string>,
                          generate: BankStrategy -> Result<string, string>): (r: Result<string, McpError>)
    ensures !pathExists ==> r == Err(McpError(InvalidParams, "Path does not exist: " + path))
    ensures pathExists && ParseStrategy(strategy).Err? ==> r == Err(McpError(InvalidParams, ParseStrategy(strategy).error))
    ensures r.Ok? ==> pathExists && ParseStrategy(strategy).Ok? && start.Ok? &&
                      generate(ParseStrategy(strategy).value) == Ok(r.value)
    ensures r.Err? && r.error.code == InternalError ==> pathExists && ParseStrategy(strategy).Ok?
  {
    if !pathExists then Err(McpError(InvalidParams, "Path does not exist: " + path))
    else match ParseStrategy(strategy)
      case Err(e) => Err(McpError(InvalidParams, e))
      case Ok(b) =>
        if start.Err? then Err(McpError(InternalError, "Failed to initialize CodeBank: " + start.error))
        else match generate(b)
          case Err(e) => Err(McpError(InternalError, "Failed to generate code bank: " + e))
          case Ok(content) => Ok(content)
  }

  /**
   * The `generate_file` tool: the same checks in the same order, then the
   * write, whose failure is an internal error too; `write` stands for
   * `fs::write` of the content.
   */
  function HandleGenerateFile(pathExists: bool, path: string, strategy: string, output: string,
                              start: Result<(), string>, generate: BankStrategy -> Result<string, string>,
                              write: string -> Result<(), string>): (r: Result<string, McpError>)
    ensures (r.Err? && r.error.code == InvalidParams) <==> HandleGenerate(pathExists, path, strategy, start, generate).Err? &&
                                                           HandleGenerate(pathExists, path, strategy, start, generate).error.code == InvalidParams
    ensures r.Ok? ==> r.value == "Successfully generated code bank and saved to " + output &&
                      HandleGenerate(pathExists, path, strategy, start, generate).Ok? &&
                      write(HandleGenerate(pathExists, path, strategy, start, generate).value).Ok?
  {
    match HandleGenerate(pathExists, path, strategy, start, generate)
    case Err(e) => Err(e)
    case Ok(content) =>
      match write(content)
      case Err(e) => Err(McpError(InternalError, "Failed to write to file: " + e))
      case Ok(_) => Ok("Successfully generated code bank and saved to " + output)
  }
}
