/** The request shaping and error downgrading of src/api/project-client.ts. */
module ProjectClient {
  import opened Wrappers
  import opened Json
  import opened Errors
  import opened ApiCommon

  /** listProjects: each argument becomes a query parameter only when it is truthy. */
  method ListParams(status: Option<string>, ownerId: Option<string>, limit: Option<int>, offset: Option<int>)
    returns (params: Body)
    ensures params.Keys <= {"status", "ownerId", "limit", "offset"}
    ensures "status" in params <==> HasText(status)
    ensures "ownerId" in params <==> HasText(ownerId)
    ensures "limit" in params <==> HasNumber(limit)
    ensures "offset" in params <==> HasNumber(offset)
    ensures HasText(status) ==> params["status"] == JStr(status.value)
    ensures HasText(ownerId) ==> params["ownerId"] == JStr(ownerId.value)
    ensures HasNumber(limit) ==> params["limit"] == JNum(limit.value)
    ensures HasNumber(offset) ==> params["offset"] == JNum(offset.value)
  {
    params := map[];
    if HasText(status) {
      params := params["status" := JStr(status.value)];
    }
    if HasText(ownerId) {
      params := params["ownerId" := JStr(ownerId.value)];
    }
    if HasNumber(limit) {
      params := params["limit" := JNum(limit.value)];
    }
    if HasNumber(offset) {
      params := params["offset" := JNum(offset.value)];
    }
  }

  /** listProjects: a licensing 403 is downgraded to an empty list; any other failure
      is rethrown with the default "Failed to get projects". */
  function ListProjects(outcome: Result<Body, Transport>, stringify: Stringify): (r: Result<Value, Thrown>)
    ensures outcome.Success? ==> r == Success(ListData(outcome.value))
    ensures outcome.Failure? && LicenseDenied(outcome.error) ==> r == Success(JArr([]))
    ensures outcome.Failure? && !LicenseDenied(outcome.error) ==>
      r == Failure(Rethrow(outcome.error, "Failed to get projects", stringify))
    ensures r.Failure? <==> outcome.Failure? && !LicenseDenied(outcome.error)
  {
    match outcome
    case Success(body) => Success(ListData(body))
    case Failure(f) =>
      if LicenseDenied(f) then Success(JArr([])) else Failure(Rethrow(f, "Failed to get projects", stringify))
  }

  /** A 403 that does not mention the license is not downgraded. */
  lemma ForbiddenWithoutLicenseFails(data: Option<Value>, stringify: Stringify)
    requires !LicenseDenied(HttpErr(403, data))
    ensures ListProjects(Failure(HttpErr(403, data)), stringify).Failure?
    ensures ListProjects(Failure(HttpErr(403, data)), stringify).error.error.code == AuthenticationError
  {
  }

  /** createProject sends only the name. */
  function CreatePayload(params: Body): (p: Body)
    ensures p.Keys <= {"name"}
    ensures "name" in p <==> "name" in params
    ensures "name" in p ==> p["name"] == params["name"]
  {
    if "name" in params then map["name" := params["name"]] else map[]
  }

  const CreateLicenseText := "Project creation not available in current license tier"
  const CreateValidationPrefix := "Project creation failed due to validation: "

  /** createProject: a licensing 403 first, then a 400 with a string message, then
      handleAxiosError. */
  function CreateProject(outcome: Result<Value, Transport>, stringify: Stringify): (r: Result<Value, Thrown>)
    ensures outcome.Success? ==> r == Success(outcome.value)
    ensures outcome.Failure? && LicenseDenied(outcome.error) ==> r == Failure(PlainError(CreateLicenseText))
    ensures outcome.Failure? && HasStatus(outcome.error, 400) && ResponseText(outcome.error).Some? ==>
      r == Failure(PlainError(CreateValidationPrefix + ResponseText(outcome.error).value))
    ensures outcome.Failure? && !LicenseDenied(outcome.error) &&
            !(HasStatus(outcome.error, 400) && ResponseText(outcome.error).Some?) ==>
      r == Failure(Rethrow(outcome.error, "Failed to create project", stringify))
  {
    match outcome
    case Success(v) => Success(v)
    case Failure(f) =>
      if LicenseDenied(f) then Failure(PlainError(CreateLicenseText))
      else if HasStatus(f, 400) && ResponseText(f).Some? then
        Failure(PlainError(CreateValidationPrefix + ResponseText(f).value))
      else Failure(Rethrow(f, "Failed to create project", stringify))
  }

  /** updateProject: a licensing 403 gets its own message; anything else goes through
      handleAxiosError with the project id in the default message. */
  function UpdateProject(id: string, outcome: Result<Value, Transport>, stringify: Stringify)
    : (r: Result<Value, Thrown>)
    ensures outcome.Success? ==> r == Success(outcome.value)
    ensures outcome.Failure? && LicenseDenied(outcome.error) ==>
      r == Failure(PlainError("Project update not available in current license tier"))
    ensures outcome.Failure? && !LicenseDenied(outcome.error) ==>
      r == Failure(Rethrow(outcome.error, "Failed to update project " + id, stringify))
  {
    match outcome
    case Success(v) => Success(v)
    case Failure(f) =>
      if LicenseDenied(f) then Failure(PlainError("Project update not available in current license tier"))
      else Failure(Rethrow(f, "Failed to update project " + id, stringify))
  }

  /** deleteProject: `force` is sent only when it is true. */
  method DeleteParams(force: bool) returns (params: Body)
    ensures force ==> params == map["force" := JBool(true)]
    ensures !force ==> params == map[]
  {
    params := map[];
    if force {
      params := params["force" := JBool(true)];
    }
  }

  /** deleteProject: `{success: true}`, or the licensing message, or handleAxiosError. */
  function DeleteProject(id: string, outcome: Result<Value, Transport>, stringify: Stringify)
    : (r: Result<Value, Thrown>)
    ensures outcome.Success? ==> r == Success(SuccessFlag)
    ensures outcome.Failure? && LicenseDenied(outcome.error) ==>
      r == Failure(PlainError("Project deletion not available in current license tier"))
    ensures outcome.Failure? && !LicenseDenied(outcome.error) ==>
      r == Failure(Rethrow(outcome.error, "Failed to delete project " + id, stringify))
  {
    match outcome
    case Success(_) => Success(SuccessFlag)
    case Failure(f) =>
      if LicenseDenied(f) then Failure(PlainError("Project deletion not available in current license tier"))
      else Failure(Rethrow(f, "Failed to delete project " + id, stringify))
  }
}
