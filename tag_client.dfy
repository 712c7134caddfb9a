/** The request shaping and error rewrapping of src/api/tag-client.ts. */
module TagClient {
  import opened Wrappers
  import opened Json
  import opened Errors
  import opened ApiCommon
  import Text

  /** listTags: each argument becomes a query parameter only when it is truthy. */
  method ListParams(search: Option<string>, limit: Option<int>, offset: Option<int>) returns (params: Body)
    ensures params.Keys <= {"search", "limit", "offset"}
    ensures "search" in params <==> HasText(search)
    ensures "limit" in params <==> HasNumber(limit)
    ensures "offset" in params <==> HasNumber(offset)
    ensures HasText(search) ==> params["search"] == JStr(search.value)
    ensures HasNumber(limit) ==> params["limit"] == JNum(limit.value)
    ensures HasNumber(offset) ==> params["offset"] == JNum(offset.value)
  {
    params := map[];
    if HasText(search) {
      params := params["search" := JStr(search.value)];
    }
    if HasNumber(limit) {
      params := params["limit" := JNum(limit.value)];
    }
    if HasNumber(offset) {
      params := params["offset" := JNum(offset.value)];
    }
  }

  function ListTags(outcome: Result<Body, Transport>, stringify: Stringify): (r: Result<Value, Thrown>)
    ensures r.Success? <==> outcome.Success?
    ensures r.Success? ==> r.value == ListData(outcome.value)
    ensures r.Failure? ==> r.error == Rethrow(outcome.error, "Failed to get tags", stringify)
  {
    match outcome
    case Success(body) => Success(ListData(body))
    case Failure(f) => Failure(Rethrow(f, "Failed to get tags", stringify))
  }

  /** A non-empty string colour (`params.color && typeof params.color === 'string'`). */
  predicate ValidColor(params: Body) {
    "color" in params && params["color"].JStr? && params["color"].s != ""
  }

  /** createTag's sanitised payload: the name, and the colour only when it is a
      non-empty string. */
  method SanitizeCreate(params: Body) returns (sanitized: Body)
    ensures sanitized.Keys <= {"name", "color"}
    ensures "name" in sanitized <==> "name" in params
    ensures "name" in sanitized ==> sanitized["name"] == params["name"]
    ensures "color" in sanitized <==> ValidColor(params)
    ensures "color" in sanitized ==> sanitized["color"] == params["color"]
  {
    sanitized := if "name" in params then map["name" := params["name"]] else map[];
    if ValidColor(params) {
      sanitized := sanitized["color" := params["color"]];
    }
  }

  function CreateTag(outcome: Result<Value, Transport>, stringify: Stringify): (r: Result<Value, Thrown>)
    ensures outcome.Success? ==> r == Success(outcome.value)
    ensures outcome.Failure? && HasStatus(outcome.error, 400) && ResponseText(outcome.error).Some? ==>
      r == Failure(PlainError("Tag creation failed due to validation: " + ResponseText(outcome.error).value))
    ensures outcome.Failure? && !(HasStatus(outcome.error, 400) && ResponseText(outcome.error).Some?) ==>
      r == Failure(Rethrow(outcome.error, "Failed to create tag", stringify))
  {
    match outcome
    case Success(v) => Success(v)
    case Failure(f) =>
      if HasStatus(f, 400) && ResponseText(f).Some? then
        Failure(PlainError("Tag creation failed due to validation: " + ResponseText(f).value))
      else Failure(Rethrow(f, "Failed to create tag", stringify))
  }

  const NotSupportedText := "Tag update operation not supported by the n8n API"

  /** A 409 whose string message says the tag already exists. */
  predicate Conflict(f: Transport) {
    HasStatus(f, 409) && ResponseText(f).Some? && Text.Contains(ResponseText(f).value, "already exists")
  }

  /** updateTag: 405 first, then a 409 "already exists", then a 400 with a string
      message, then handleAxiosError with the tag id. */
  function UpdateTag(id: string, outcome: Result<Value, Transport>, stringify: Stringify): (r: Result<Value, Thrown>)
    ensures outcome.Success? ==> r == Success(outcome.value)
    ensures outcome.Failure? && HasStatus(outcome.error, 405) ==> r == Failure(PlainError(NotSupportedText))
    ensures outcome.Failure? && Conflict(outcome.error) ==>
      r == Failure(PlainError("Tag update failed: " + ResponseText(outcome.error).value))
    ensures outcome.Failure? && HasStatus(outcome.error, 400) && ResponseText(outcome.error).Some? ==>
      r == Failure(PlainError("Tag update failed due to validation: " + ResponseText(outcome.error).value))
    ensures outcome.Failure? && !HasStatus(outcome.error, 405) && !Conflict(outcome.error) &&
            !(HasStatus(outcome.error, 400) && ResponseText(outcome.error).Some?) ==>
      r == Failure(Rethrow(outcome.error, "Failed to update tag " + id, stringify))
  {
    match outcome
    case Success(v) => Success(v)
    case Failure(f) =>
      if HasStatus(f, 405) then Failure(PlainError(NotSupportedText))
      else if Conflict(f) then Failure(PlainError("Tag update failed: " + ResponseText(f).value))
      else if HasStatus(f, 400) && ResponseText(f).Some? then
        Failure(PlainError("Tag update failed due to validation: " + ResponseText(f).value))
      else Failure(Rethrow(f, "Failed to update tag " + id, stringify))
  }

  /** A 409 that does not say "already exists" falls through to handleAxiosError,
      which classifies it as an invalid request. */
  lemma OtherConflictFallsThrough(id: string, data: Option<Value>, stringify: Stringify)
    requires !Conflict(HttpErr(409, data))
    ensures UpdateTag(id, Failure(HttpErr(409, data)), stringify).Failure?
    ensures UpdateTag(id, Failure(HttpErr(409, data)), stringify).error.ApiErr?
    ensures UpdateTag(id, Failure(HttpErr(409, data)), stringify).error.error.code == InvalidRequest
  {
  }

  function DeleteTag(id: string, outcome: Result<Value, Transport>, stringify: Stringify): (r: Result<Value, Thrown>)
    ensures outcome.Success? ==> r == Success(SuccessFlag)
    ensures outcome.Failure? ==> r == Failure(Rethrow(outcome.error, "Failed to delete tag " + id, stringify))
  {
    match outcome
    case Success(_) => Success(SuccessFlag)
    case Failure(f) => Failure(Rethrow(f, "Failed to delete tag " + id, stringify))
  }
}
