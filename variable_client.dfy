/** The request shaping and error downgrading of src/api/variable-client.ts. */
module VariableClient {
  import opened Wrappers
  import opened Json
  import opened Errors
  import opened ApiCommon

  /** listVariables: projectId, type, limit and offset need a truthy value;
      includeSystem and includeValues are sent whenever they are given, false included. */
  method ListParams(projectId: Option<string>, varType: Option<string>, includeSystem: Option<bool>,
                    includeValues: Option<bool>, limit: Option<int>, offset: Option<int>)
    returns (params: Body)
    ensures params.Keys <= {"projectId", "type", "includeSystem", "includeValues", "limit", "offset"}
    ensures "projectId" in params <==> HasText(projectId)
    ensures "type" in params <==> HasText(varType)
    ensures "includeSystem" in params <==> includeSystem.Some?
    ensures "includeValues" in params <==> includeValues.Some?
    ensures "limit" in params <==> HasNumber(limit)
    ensures "offset" in params <==> HasNumber(offset)
    ensures HasText(projectId) ==> params["projectId"] == JStr(projectId.value)
    ensures HasText(varType) ==> params["type"] == JStr(varType.value)
    ensures includeSystem.Some? ==> params["includeSystem"] == JBool(includeSystem.value)
    ensures includeValues.Some? ==> params["includeValues"] == JBool(includeValues.value)
    ensures HasNumber(limit) ==> params["limit"] == JNum(limit.value)
    ensures HasNumber(offset) ==> params["offset"] == JNum(offset.value)
  {
    params := map[];
    if HasText(projectId) {
      params := params["projectId" := JStr(projectId.value)];
    }
    if HasText(varType) {
      params := params["type" := JStr(varType.value)];
    }
    if includeSystem.Some? {
      params := params["includeSystem" := JBool(includeSystem.value)];
    }
    if includeValues.Some? {
      params := params["includeValues" := JBool(includeValues.value)];
    }
    if HasNumber(limit) {
      params := params["limit" := JNum(limit.value)];
    }
    if HasNumber(offset) {
      params := params["offset" := JNum(offset.value)];
    }
  }

  /** listVariables: any 403, whatever its message, is downgraded to an empty list. */
  function ListVariables(outcome: Result<Body, Transport>, stringify: Stringify): (r: Result<Value, Thrown>)
    ensures outcome.Success? ==> r == Success(ListData(outcome.value))
    ensures outcome.Failure? && HasStatus(outcome.error, 403) ==> r == Success(JArr([]))
    ensures outcome.Failure? && !HasStatus(outcome.error, 403) ==>
      r == Failure(Rethrow(outcome.error, "Failed to get variables", stringify))
  {
    match outcome
    case Success(body) => Success(ListData(body))
    case Failure(f) =>
      if HasStatus(f, 403) then Success(JArr([])) else Failure(Rethrow(f, "Failed to get variables", stringify))
  }

  /** createVariable sends exactly the key and the value (those the parameters define). */
  function CreatePayload(params: Body): (p: Body)
    ensures p.Keys == params.Keys * {"key", "value"}
    ensures forall k :: k in p ==> p[k] == params[k]
  {
    map k | k in params && k in {"key", "value"} :: params[k]
  }

  const CreateValidationPrefix := "Variable creation failed due to validation: "
  const EnterpriseText := "Variables feature requires enterprise license and is not available in the community edition"
  const PermissionText :=
    "Insufficient permissions to manage variables. Variables may require enterprise features or specific roles."

  /** createVariable: a 400 with a string message, then 402, then 403, then handleAxiosError. */
  function CreateVariable(outcome: Result<Value, Transport>, stringify: Stringify): (r: Result<Value, Thrown>)
    ensures outcome.Success? ==> r == Success(outcome.value)
    ensures outcome.Failure? && HasStatus(outcome.error, 400) && ResponseText(outcome.error).Some? ==>
      r == Failure(PlainError(CreateValidationPrefix + ResponseText(outcome.error).value))
    ensures outcome.Failure? && HasStatus(outcome.error, 402) ==> r == Failure(PlainError(EnterpriseText))
    ensures outcome.Failure? && HasStatus(outcome.error, 403) ==> r == Failure(PlainError(PermissionText))
    ensures outcome.Failure? && !(HasStatus(outcome.error, 400) && ResponseText(outcome.error).Some?) &&
            !HasStatus(outcome.error, 402) && !HasStatus(outcome.error, 403) ==>
      r == Failure(Rethrow(outcome.error, "Failed to create variable", stringify))
  {
    match outcome
    case Success(v) => Success(v)
    case Failure(f) =>
      if HasStatus(f, 400) && ResponseText(f).Some? then Failure(PlainError(CreateValidationPrefix + ResponseText(f).value))
      else if HasStatus(f, 402) then Failure(PlainError(EnterpriseText))
      else if HasStatus(f, 403) then Failure(PlainError(PermissionText))
      else Failure(Rethrow(f, "Failed to create variable", stringify))
  }

  /** A 400 without a string message is not a validation error: it goes through
      handleAxiosError as an invalid request. */
  lemma BadRequestWithoutText(data: Option<Value>, stringify: Stringify)
    requires ResponseText(HttpErr(400, data)).None?
    ensures CreateVariable(Failure(HttpErr(400, data)), stringify).Failure?
    ensures CreateVariable(Failure(HttpErr(400, data)), stringify).error.ApiErr?
    ensures CreateVariable(Failure(HttpErr(400, data)), stringify).error.error.code == InvalidRequest
  {
  }

  /** deleteVariableById: `{success: true}`, a fixed message for any 403, or handleAxiosError. */
  function DeleteVariableById(id: string, outcome: Result<Value, Transport>, stringify: Stringify)
    : (r: Result<Value, Thrown>)
    ensures outcome.Success? ==> r == Success(SuccessFlag)
    ensures outcome.Failure? && HasStatus(outcome.error, 403) ==>
      r == Failure(PlainError("Variable deletion not available in current license or permission level"))
    ensures outcome.Failure? && !HasStatus(outcome.error, 403) ==>
      r == Failure(Rethrow(outcome.error, "Failed to delete variable " + id, stringify))
  {
    match outcome
    case Success(_) => Success(SuccessFlag)
    case Failure(f) =>
      if HasStatus(f, 403) then Failure(PlainError("Variable deletion not available in current license or permission level"))
      else Failure(Rethrow(f, "Failed to delete variable " + id, stringify))
  }
}
