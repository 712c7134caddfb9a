/** The `{content, isError}` envelopes produced by the tool base handlers
    (the base-handler.ts file of each tool family): success and error formatting, and the
    try/catch wrapper that turns anything thrown into an error envelope. */
module ToolResults {
  import opened Wrappers
  import opened Json
  import opened Errors

  /** One content block: a text line, the serialisation of a value (a `text` block
      holding `JSON.stringify(data, null, 2)`), or a `json` block carrying a value. */
  datatype Block = Text(text: string) | Serialized(data: Value) | JsonData(json: Value)

  datatype ToolResult = ToolResult(content: seq<Block>, isError: bool)

  /** The tool families whose base handlers share one shape and differ only in the
      name used in their fall-back error prefix. */
  datatype Family = TagTools | UserTools | VariableTools | ProjectTools | SourceControlTools
  {
    function Label(): string {
      match this
      case TagTools => "tag"
      case UserTools => "user"
      case VariableTools => "variable"
      case ProjectTools => "project"
      case SourceControlTools => "source control"
    }
  }

  /** The argument of formatError: an Error object or a plain string. */
  datatype ErrorArg = Str(s: string) | Err(thrown: Thrown)

  predicate WellTyped(arg: ErrorArg) {
    arg.Err? ==> arg.thrown.IsError()
  }

  /** What a workflow or execution tool hands to its family's formatSuccess: the data
      and the message (those base handlers are not part of this model). */
  datatype Reply<T> = Reply(data: T, message: string)

  const DefaultSuccess := "Operation completed successfully"
  const ErrorPrefix := "Error: "
  const UnknownError := "Unknown error occurred"
  const UnexpectedAuditError := "An unexpected error occurred during tool execution"

  /** `message || 'Operation completed successfully'`. */
  function SuccessText(message: Option<string>): (t: string)
    ensures HasText(message) ==> t == message.value
    ensures !HasText(message) ==> t == DefaultSuccess
    ensures t != ""
  {
    if HasText(message) then message.value else DefaultSuccess
  }

  // ---- reading envelopes back ----

  /** The message of an error envelope: its single text block after "Error: ". */
  function ReportedError(r: ToolResult): Option<string> {
    if r.isError && |r.content| == 1 && r.content[0].Text? && ErrorPrefix <= r.content[0].text
    then Some(r.content[0].text[|ErrorPrefix|..])
    else None
  }

  /** The message and data of a two-block success envelope. */
  function ReportedSuccess(r: ToolResult): Option<(string, Value)> {
    if !r.isError && |r.content| == 2 && r.content[0].Text? && r.content[1].Serialized?
    then Some((r.content[0].text, r.content[1].data))
    else None
  }

  // ---- the shared base handler (tag, user, variable, project, source control,
  //      and the success/error halves of the security-audit handler) ----

  /** formatSuccess: a message block, then the serialised data. */
  function FormatSuccess(data: Value, message: Option<string>): (r: ToolResult)
    ensures ReportedSuccess(r) == Some((SuccessText(message), data))
    ensures ReportedError(r).None?
  {
    ToolResult([Text(SuccessText(message)), Serialized(data)], false)
  }

  /** formatError: one block "Error: " + the message (a string is used verbatim). */
  function FormatError(arg: ErrorArg): (r: ToolResult)
    requires WellTyped(arg)
    ensures arg.Str? ==> ReportedError(r) == Some(arg.s)
    ensures arg.Err? ==> ReportedError(r) == Some(arg.thrown.Message())
    ensures ReportedSuccess(r).None?
  {
    var m := if arg.Str? then arg.s else arg.thrown.Message();
    var r := ToolResult([Text(ErrorPrefix + m)], true);
    assert r.content[0].text[|ErrorPrefix|..] == m;
    r
  }

  /** The text reported for something thrown inside a handler of the given family. */
  function FamilyFailureText(f: Family, t: Thrown): string {
    if t.ApiErr? then t.ToString()
    else "Error executing " + f.Label() + " tool: " + (if t.IsError() then t.Message() else UnknownError)
  }

  /** handleExecution: a result passes through unchanged; an N8nApiError is reported
      by its `toString()`; any other Error by its message behind the family prefix;
      a non-Error by a fixed text. Nothing is ever rethrown. */
  function HandleExecution(f: Family, outcome: Result<ToolResult, Thrown>): (r: ToolResult)
    ensures outcome.Success? ==> r == outcome.value
    ensures outcome.Failure? ==> ReportedError(r) == Some(FamilyFailureText(f, outcome.error))
    ensures outcome.Failure? && outcome.error.ApiErr? ==>
      ReportedError(r) == Some(outcome.error.ToString()) && "N8nApiError" <= ReportedError(r).value
    ensures outcome.Failure? && !outcome.error.ApiErr? ==>
      ("Error executing " + f.Label() + " tool: ") <= ReportedError(r).value
  {
    match outcome
    case Success(res) => res
    case Failure(t) => FormatError(Str(FamilyFailureText(f, t)))
  }

  /** The fall-back prefixes of the five families are pairwise different, so the text
      of a reported failure tells which family reported it. */
  lemma {:induction false} FamilyPrefixInjective(f: Family, g: Family)
    ensures f.Label() == g.Label() ==> f == g
  {
  }

  /** In every family (the base handlers under src/tools/tag, user, variable, project
      and source-control) an Error is reported by its message behind the family's
      prefix, and anything else by the unknown-error text behind it. */
  lemma FamilyFallbackTexts(f: Family, msg: string)
    ensures ReportedError(HandleExecution(f, Failure(PlainError(msg)))) ==
            Some("Error executing " + f.Label() + " tool: " + msg)
    ensures ReportedError(HandleExecution(f, Failure(NonError(JNull)))) ==
            Some("Error executing " + f.Label() + " tool: " + UnknownError)
  {
  }

  /** An N8nApiError with a non-empty message surfaces as "Error: N8nApiError: " + message
      in every family. */
  lemma ApiErrorSurface(f: Family, e: ApiError)
    requires e.message != ""
    ensures HandleExecution(f, Failure(ApiErr(e))).content == [Text("Error: N8nApiError: " + e.message)]
  {
    var t := ApiErr(e);
    assert t.Message() == e.message && t.Name() == "N8nApiError";
    assert FamilyFailureText(f, t) == "N8nApiError" + ": " + e.message;
    assert ErrorPrefix + "N8nApiError" + ": " == "Error: N8nApiError: ";
    assert ErrorPrefix + ("N8nApiError" + ": " + e.message) == "Error: N8nApiError: " + e.message;
  }

  // ---- the security-audit handler ----

  /** The security-audit handleExecution: an McpError or any other Error is reported by
      its own message, with no prefix; a non-Error by a fixed McpError's message. */
  function HandleAuditExecution(outcome: Result<ToolResult, Thrown>): (r: ToolResult)
    ensures outcome.Success? ==> r == outcome.value
    ensures outcome.Failure? && outcome.error.IsError() ==> ReportedError(r) == Some(outcome.error.Message())
    ensures outcome.Failure? && !outcome.error.IsError() ==> ReportedError(r) == Some(UnexpectedAuditError)
  {
    match outcome
    case Success(res) => res
    case Failure(t) =>
      if t.McpErr? then FormatError(Err(t))
      else FormatError(Err(if t.IsError() then t else McpErr(InternalError, UnexpectedAuditError)))
  }

  // ---- the credential handler ----

  /** The credential formatSuccess: the message block, and a `json` block carrying the
      data only when the data is truthy (pushed onto the content in place). */
  method CredentialSuccess(data: Option<Value>, message: Option<string>) returns (r: ToolResult)
    ensures !r.isError && |r.content| >= 1 && r.content[0] == Text(SuccessText(message))
    ensures |r.content| == 2 <==> TruthyOpt(data)
    ensures |r.content| <= 2
    ensures |r.content| == 2 ==> r.content[1] == JsonData(data.value)
    ensures ReportedError(r).None?
  {
    r := ToolResult([Text(SuccessText(message))], false);
    if TruthyOpt(data) {
      r := r.(content := r.content + [JsonData(data.value)]);
    }
  }
}
