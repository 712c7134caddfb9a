/** The failure shape shared by the static resources under src/resources/static: any
    failure becomes an MCP internal error whose message names the resource. */
module ResourceCommon {
  import opened Errors

  /** `new McpError(ErrorCode.InternalError, prefix + (error instanceof Error ?
      error.message : 'Unknown error'))`. */
  function ResourceFailure(prefix: string, t: Thrown): (e: Thrown)
    ensures e.McpErr? && e.mcpCode == InternalError
    ensures t.IsError() ==> e.mcpMessage == prefix + t.Message()
    ensures !t.IsError() ==> e.mcpMessage == prefix + "Unknown error"
  {
    McpErr(InternalError, prefix + (if t.IsError() then t.Message() else "Unknown error"))
  }
}
