/** The error layer of src/errors/index.ts: the status-code ladder of N8nApiError,
    message formatting, classification of transport failures, and the values that
    operations throw. */
module Errors {
  import opened Wrappers
  import opened Json
  import Text

  datatype ErrorCode = InternalError | AuthenticationError | NotFoundError | InvalidRequest

  /** An N8nApiError: its (formatted) message, code, optional status and optional details. */
  datatype ApiError = ApiError(message: string, code: ErrorCode, statusCode: Option<int>, details: Option<Value>)

  /** `JSON.stringify`, supplied by the caller; `None` means it threw (e.g. on a cycle). */
  type Stringify = Value -> Option<string>

  /** What a client call can fail with, inspected in this order by handleAxiosError:
      a server response, a request that got no response, anything else. */
  datatype Transport =
    | HttpErr(status: int, data: Option<Value>)   // error.response is set
    | NetErr(errMessage: string)                  // error.request is set, no response
    | Other(otherMessage: Option<Value>)          // any other thrown value; its `.message`

  /** Values an operation can throw. */
  datatype Thrown =
    | ApiErr(error: ApiError)                     // an N8nApiError
    | McpErr(mcpCode: ErrorCode, mcpMessage: string) // an McpError
    | PlainError(text: string)                    // any other Error
    | NonError(value: Value)                      // a thrown non-Error value
  {
    /** `error instanceof Error`. */
    predicate IsError() {
      !NonError?
    }

    /** `error.message` of an Error. */
    function Message(): string
      requires IsError()
    {
      match this
      case ApiErr(e) => e.message
      case McpErr(_, m) => m
      case PlainError(m) => m
    }

    /** `error.name`. */
    function Name(): string
      requires IsError()
    {
      match this
      case ApiErr(_) => "N8nApiError"
      case McpErr(_, _) => "McpError"
      case PlainError(_) => "Error"
    }

    /** `Error.prototype.toString()`: the name, then ": " and the message when there is one. */
    function ToString(): (s: string)
      requires IsError()
      ensures Name() <= s
      ensures Message() != "" ==> s == Name() + ": " + Message()
    {
      if Message() == "" then Name() else Name() + ": " + Message()
    }
  }

  /** `if (statusCode)`: a status is truthy when present and not 0. */
  predicate StatusTruthy(statusCode: Option<int>) {
    statusCode.Some? && statusCode.value != 0
  }

  /** The N8nApiError code for a status (src/errors/index.ts:40-50). The four codes
      partition the possible statuses. */
  function CodeFor(statusCode: Option<int>): (c: ErrorCode)
    ensures c == AuthenticationError <==> StatusTruthy(statusCode) && statusCode.value in {401, 403}
    ensures c == NotFoundError <==> StatusTruthy(statusCode) && statusCode.value == 404
    ensures c == InvalidRequest <==>
      StatusTruthy(statusCode) && 400 <= statusCode.value < 500 && statusCode.value !in {401, 403, 404}
    ensures c == InternalError <==>
      !StatusTruthy(statusCode) || statusCode.value < 400 || statusCode.value >= 500
  {
    if StatusTruthy(statusCode) then
      var s := statusCode.value;
      if s == 401 || s == 403 then AuthenticationError
      else if s == 404 then NotFoundError
      else if s >= 400 && s < 500 then InvalidRequest
      else InternalError
    else InternalError
  }

  /** The text appended for the details, if any: a string verbatim, anything else
      serialised; nothing when the details are falsy or serialisation throws. */
  function DetailsText(details: Option<Value>, stringify: Stringify): (t: Option<string>)
    ensures !TruthyOpt(details) ==> t.None?
    ensures details.Some? && details.value.JStr? && details.value.s != "" ==> t == Some(details.value.s)
  {
    if !TruthyOpt(details) then None
    else if details.value.JStr? then Some(details.value.s)
    else stringify(details.value)
  }

  const StatusOpen := " (Status: "
  const DetailsOpen := "\nDetails: "

  /** The message with " (Status: N)" appended when the status is truthy. */
  function WithStatus(message: string, statusCode: Option<int>): (r: string)
    ensures StatusTruthy(statusCode) ==> r == message + StatusOpen + Text.IntToString(statusCode.value) + ")"
    ensures !StatusTruthy(statusCode) ==> r == message
  {
    if StatusTruthy(statusCode) then message + StatusOpen + Text.IntToString(statusCode.value) + ")"
    else message
  }

  /** formatErrorMessage: the caller's message, then " (Status: N)" exactly when the
      status is truthy, then "\nDetails: ..." exactly when there is details text. */
  function FormatErrorMessage(message: string, statusCode: Option<int>, details: Option<Value>,
                              stringify: Stringify): (r: string)
    ensures WithStatus(message, statusCode) <= r
    ensures DetailsText(details, stringify).Some? ==>
      r == WithStatus(message, statusCode) + DetailsOpen + DetailsText(details, stringify).value
    ensures DetailsText(details, stringify).None? ==> r == WithStatus(message, statusCode)
  {
    var dt := DetailsText(details, stringify);
    if dt.Some? then WithStatus(message, statusCode) + DetailsOpen + dt.value else WithStatus(message, statusCode)
  }

  /** The status marker appears right after the caller's message exactly when the status
      is truthy, and the message is left untouched exactly when there is neither a
      status nor details text. */
  lemma FormatErrorMessageShape(message: string, statusCode: Option<int>, details: Option<Value>,
                                stringify: Stringify)
    ensures message <= FormatErrorMessage(message, statusCode, details, stringify)
    ensures StatusTruthy(statusCode) <==> message + StatusOpen <= FormatErrorMessage(message, statusCode, details, stringify)
    ensures |FormatErrorMessage(message, statusCode, details, stringify)| == |message| <==>
      !StatusTruthy(statusCode) && DetailsText(details, stringify).None?
  {
    var r := FormatErrorMessage(message, statusCode, details, stringify);
    var w := WithStatus(message, statusCode);
    assert message <= w;
    if StatusTruthy(statusCode) {
      assert message + StatusOpen <= w;
    } else if DetailsText(details, stringify).Some? {
      assert r[|message|] == '\n' != StatusOpen[0];
    }
  }

  /** `new N8nApiError(message, statusCode, details)`. */
  function NewApiError(message: string, statusCode: Option<int>, details: Option<Value>,
                       stringify: Stringify): (e: ApiError)
    ensures message <= e.message
    ensures e.code == CodeFor(statusCode)
    ensures e.statusCode == statusCode && e.details == details
  {
    FormatErrorMessageShape(message, statusCode, details, stringify);
    ApiError(FormatErrorMessage(message, statusCode, details, stringify), CodeFor(statusCode), statusCode, details)
  }

  /** `new N8nApiError(message)`: no status and no details, so the message is kept as is. */
  lemma PlainApiError(message: string, stringify: Stringify)
    ensures NewApiError(message, None, None, stringify) == ApiError(message, InternalError, None, None)
  {
    FormatErrorMessageShape(message, None, None, stringify);
  }

  /** `responseData.message` when the response data is truthy and the message is truthy. */
  function ResponseMessage(data: Option<Value>): (m: Option<Value>)
    ensures m.Some? ==> Truthy(m.value)
  {
    if TruthyOpt(data) && TruthyOpt(Get(data.value, "message")) then Get(data.value, "message") else None
  }

  const NetworkErrorText := "Network error connecting to n8n API"

  /** handleAxiosError: a response wins over a request, which wins over anything else. */
  function HandleAxiosError(f: Transport, defaultMessage: string, stringify: Stringify): (e: ApiError)
    // a server response: its status and data become the status and details
    ensures f.HttpErr? ==> e.statusCode == Some(f.status) && e.details == f.data
    ensures f.HttpErr? ==> e.code == CodeFor(Some(f.status))
    ensures f.HttpErr? && ResponseMessage(f.data).Some? ==> Display(ResponseMessage(f.data).value) <= e.message
    ensures f.HttpErr? && ResponseMessage(f.data).None? ==> defaultMessage <= e.message
    // no response: the fixed network text, no status, so always an internal error
    ensures f.NetErr? ==> NetworkErrorText <= e.message && e.statusCode.None? && e.code == InternalError
    ensures f.NetErr? && f.errMessage != "" ==> e.message == NetworkErrorText + DetailsOpen + f.errMessage
    // anything else: its own message or the default, nothing more
    ensures f.Other? ==> e.statusCode.None? && e.details.None? && e.code == InternalError
    ensures f.Other? ==>
      e.message == if TruthyOpt(f.otherMessage) then Display(f.otherMessage.value) else defaultMessage
  {
    match f
    case HttpErr(status, data) =>
      var m := ResponseMessage(data);
      NewApiError(if m.Some? then Display(m.value) else defaultMessage, Some(status), data, stringify)
    case NetErr(msg) =>
      NewApiError(NetworkErrorText, None, Some(JStr(msg)), stringify)
    case Other(msg) =>
      PlainApiError(if TruthyOpt(msg) then Display(msg.value) else defaultMessage, stringify);
      NewApiError(if TruthyOpt(msg) then Display(msg.value) else defaultMessage, None, None, stringify)
  }

  /** Each status class of a server response lands on its error code. */
  lemma ResponseClassification(status: int, data: Option<Value>, defaultMessage: string, stringify: Stringify)
    ensures status == 401 || status == 403 ==>
      HandleAxiosError(HttpErr(status, data), defaultMessage, stringify).code == AuthenticationError
    ensures status == 404 ==> HandleAxiosError(HttpErr(status, data), defaultMessage, stringify).code == NotFoundError
    ensures 400 <= status < 500 && status !in {401, 403, 404} ==>
      HandleAxiosError(HttpErr(status, data), defaultMessage, stringify).code == InvalidRequest
    ensures status >= 500 || status == 0 ==>
      HandleAxiosError(HttpErr(status, data), defaultMessage, stringify).code == InternalError
  {
  }

  /** getErrorMessage: an Error's message, a string as is, anything else serialised
      (or "Unknown error" when serialisation throws). */
  function GetErrorMessage(t: Thrown, stringify: Stringify): (m: string)
    ensures t.IsError() ==> m == t.Message()
    ensures t.NonError? && t.value.JStr? ==> m == t.value.s
  {
    if t.IsError() then t.Message()
    else if t.value.JStr? then t.value.s
    else stringify(t.value).GetOr("Unknown error")
  }
}
