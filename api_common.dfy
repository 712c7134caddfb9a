/** What the API clients (the five client files under src/api) share: response bodies and query maps
    as JSON objects, the list unwrapping `response.data.data || []`, and the tests
    their catch blocks apply to an HTTP error response. */
module ApiCommon {
  import opened Wrappers
  import opened Json
  import opened Errors
  import Text

  /** A JSON object: a response body, a request payload or a query-parameter map. */
  type Body = map<string, Value>

  /** `response.data.data || []`: the list a list endpoint wraps in `data`, or an
      empty list when it is missing or falsy. */
  function ListData(body: Body): (v: Value)
    ensures Truthy(v)
    ensures "data" in body && Truthy(body["data"]) ==> v == body["data"]
    ensures !("data" in body && Truthy(body["data"])) ==> v == JArr([])
  {
    if "data" in body && Truthy(body["data"]) then body["data"] else JArr([])
  }

  /** The response status of a transport failure, when there was a response. */
  predicate HasStatus(f: Transport, status: int) {
    f.HttpErr? && f.status == status
  }

  /** `error.response.data.message` when the response data is an object whose
      `message` is a string (the guard the clients repeat before quoting it). */
  function ResponseText(f: Transport): (m: Option<string>)
    ensures m.Some? ==> f.HttpErr? && f.data.Some? && Get(f.data.value, "message") == Some(JStr(m.value))
    ensures m.None? && f.HttpErr? && f.data.Some? ==> !(Get(f.data.value, "message").Some? && Get(f.data.value, "message").value.JStr?)
  {
    if f.HttpErr? && f.data.Some? && Get(f.data.value, "message").Some? && Get(f.data.value, "message").value.JStr?
    then Some(Get(f.data.value, "message").value.s)
    else None
  }

  /** A 403 whose string message mentions "license". */
  predicate LicenseDenied(f: Transport) {
    HasStatus(f, 403) && ResponseText(f).Some? && Text.Contains(ResponseText(f).value, "license")
  }

  /** `throw handleAxiosError(error, defaultMessage)`. */
  function Rethrow(f: Transport, defaultMessage: string, stringify: Stringify): (t: Thrown)
    ensures t.ApiErr? && t.error == HandleAxiosError(f, defaultMessage, stringify)
  {
    ApiErr(HandleAxiosError(f, defaultMessage, stringify))
  }
}
