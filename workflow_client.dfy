/** The request shaping of src/api/workflow-client.ts: list query parameters, the
    creation payload, the settings filter and the update merge. */
module WorkflowClient {
  import opened Wrappers
  import opened Json
  import opened Errors
  import opened ApiCommon

  /** listWorkflows: each argument becomes a query parameter only when it is truthy. */
  method ListParams(tagId: Option<string>, search: Option<string>, limit: Option<int>, offset: Option<int>)
    returns (params: Body)
    ensures params.Keys <= {"tags", "search", "limit", "offset"}
    ensures "tags" in params <==> HasText(tagId)
    ensures "search" in params <==> HasText(search)
    ensures "limit" in params <==> HasNumber(limit)
    ensures "offset" in params <==> HasNumber(offset)
    ensures HasText(tagId) ==> params["tags"] == JStr(tagId.value)
    ensures HasText(search) ==> params["search"] == JStr(search.value)
    ensures HasNumber(limit) ==> params["limit"] == JNum(limit.value)
    ensures HasNumber(offset) ==> params["offset"] == JNum(offset.value)
  {
    params := map[];
    if HasText(tagId) {
      params := params["tags" := JStr(tagId.value)];
    }
    if HasText(search) {
      params := params["search" := JStr(search.value)];
    }
    if HasNumber(limit) {
      params := params["limit" := JNum(limit.value)];
    }
    if HasNumber(offset) {
      params := params["offset" := JNum(offset.value)];
    }
  }

  /** listWorkflows: the unwrapped list, or the failure rethrown with its default message. */
  function ListWorkflows(outcome: Result<Body, Transport>, stringify: Stringify): (r: Result<Value, Thrown>)
    ensures r.Success? <==> outcome.Success?
    ensures r.Success? ==> r.value == ListData(outcome.value) && Truthy(r.value)
    ensures r.Failure? ==> r.error == Rethrow(outcome.error, "Failed to list workflows", stringify)
  {
    match outcome
    case Success(body) => Success(ListData(body))
    case Failure(f) => Failure(Rethrow(f, "Failed to list workflows", stringify))
  }

  /** The settings createWorkflow fills in when the workflow has none. */
  const DefaultSettings: Value := JObj(map[
    "saveExecutionProgress" := JBool(true),
    "saveManualExecutions" := JBool(true),
    "saveDataErrorExecution" := JStr("all"),
    "saveDataSuccessExecution" := JStr("all"),
    "executionTimeout" := JNum(3600),
    "timezone" := JStr("UTC")])

  /** The keys createWorkflow deletes before sending. */
  const ReadOnlyKeys: set<string> := {"active", "id", "createdAt", "updatedAt", "tags"}

  /** createWorkflow. `withSettings` is the caller's workflow after the call (the source
      writes the default settings into the caller's object); `sent` is the payload. */
  method CreateWorkflow(workflow: Body, outcome: Result<Value, Transport>, stringify: Stringify)
    returns (withSettings: Body, sent: Body, r: Result<Value, Thrown>)
    ensures "settings" in workflow && Truthy(workflow["settings"]) ==> withSettings == workflow
    ensures !("settings" in workflow && Truthy(workflow["settings"])) ==>
      withSettings == workflow["settings" := DefaultSettings]
    ensures sent.Keys == withSettings.Keys - ReadOnlyKeys
    ensures forall k :: k in sent ==> sent[k] == withSettings[k]
    ensures "settings" in sent && Truthy(sent["settings"])
    ensures r.Success? <==> outcome.Success?
    ensures r.Success? ==> r.value == outcome.value
    ensures r.Failure? ==> r.error == Rethrow(outcome.error, "Failed to create workflow", stringify)
  {
    withSettings := workflow;
    if !("settings" in workflow && Truthy(workflow["settings"])) {
      withSettings := withSettings["settings" := DefaultSettings];
    }
    sent := withSettings;
    sent := sent - {"active"};
    sent := sent - {"id"};
    sent := sent - {"createdAt"};
    sent := sent - {"updatedAt"};
    sent := sent - {"tags"};
    r := match outcome
      case Success(v) => Success(v)
      case Failure(f) => Failure(Rethrow(f, "Failed to create workflow", stringify));
  }

  /** The settings the n8n API accepts on update, in the order they are copied. */
  const AllowedSettingsKeys: seq<string> := [
    "executionOrder", "saveExecutionProgress", "saveManualExecutions",
    "saveDataErrorExecution", "saveDataSuccessExecution", "executionTimeout", "timezone"]

  /** What filterSettings keeps: the allowed keys the settings object defines, with
      their values; nothing at all for missing, falsy or non-object settings. */
  function FilteredSettings(settings: Option<Value>): (m: Body)
    ensures m.Keys <= set k | k in AllowedSettingsKeys
    ensures forall k :: k in m ==> settings.Some? && settings.value.JObj? && k in settings.value.fields &&
                                   m[k] == settings.value.fields[k]
    ensures settings.Some? && settings.value.JObj? ==>
      forall k :: k in AllowedSettingsKeys && k in settings.value.fields ==> k in m
    ensures !(settings.Some? && settings.value.JObj?) ==> m == map[]
  {
    if settings.Some? && settings.value.JObj? then
      map k | k in settings.value.fields && k in AllowedSettingsKeys :: settings.value.fields[k]
    else map[]
  }

  /** Filtering filtered settings changes nothing. */
  lemma FilterSettingsIdempotent(settings: Option<Value>)
    ensures FilteredSettings(Some(JObj(FilteredSettings(settings)))) == FilteredSettings(settings)
  {
  }

  /** filterSettings: copies the allowed keys one by one, skipping undefined ones. */
  method FilterSettings(settings: Option<Value>) returns (filtered: Body)
    ensures filtered == FilteredSettings(settings)
  {
    filtered := map[];
    if !TruthyOpt(settings) || !(settings.value.JObj? || settings.value.JArr?) {
      return;
    }
    var n := 0;
    while n < |AllowedSettingsKeys|
      invariant n <= |AllowedSettingsKeys|
      invariant settings.value.JObj? ==>
        filtered == map k | k in settings.value.fields && k in AllowedSettingsKeys[..n] :: settings.value.fields[k]
      invariant settings.value.JArr? ==> filtered == map[]
    {
      var key := AllowedSettingsKeys[n];
      var value := Get(settings.value, key);
      if value.Some? {
        filtered := filtered[key := value.value];
      }
      assert AllowedSettingsKeys[..n + 1] == AllowedSettingsKeys[..n] + [key];
      n := n + 1;
    }
    assert AllowedSettingsKeys[..n] == AllowedSettingsKeys;
  }

  /** `o.key` for a key that may be missing. */
  function Field(o: Body, key: string): Option<Value> {
    if key in o then Some(o[key]) else None
  }

  /** The settings the update starts from: the new ones when given, else the current ones. */
  function SettingsSource(workflow: Body, current: Body): Option<Value> {
    if "settings" in workflow then Some(workflow["settings"]) else Field(current, "settings")
  }

  /** One required field of the update: the new value when given, else the current
      one; a field neither defines is left out of the JSON payload. */
  function Merged(workflow: Body, current: Body, key: string): Option<Value> {
    if key in workflow then Some(workflow[key]) else Field(current, key)
  }

  /** The updateWorkflow payload: name, nodes and connections merged from the new and
      current workflow, the filtered settings, and `active` only when it was given. */
  function UpdatePayload(workflow: Body, current: Body, settings: Body): (p: Body)
    ensures p.Keys <= {"name", "nodes", "connections", "settings", "active"}
    ensures "settings" in p && p["settings"] == JObj(settings)
    ensures "active" in p <==> "active" in workflow
    ensures "active" in p ==> p["active"] == workflow["active"]
    ensures forall k :: k in {"name", "nodes", "connections"} ==>
      (k in p <==> k in workflow || k in current) &&
      (k in workflow ==> p[k] == workflow[k]) &&
      (k !in workflow && k in current ==> p[k] == current[k])
  {
    var base := map k | k in {"name", "nodes", "connections"} && Merged(workflow, current, k).Some?
                      :: Merged(workflow, current, k).value;
    var withSettings := base["settings" := JObj(settings)];
    if "active" in workflow then withSettings["active" := workflow["active"]] else withSettings
  }

  /** The message updateWorkflow reports when reading the current workflow fails. */
  function ReadFailureMessage(id: string, f: Transport, stringify: Stringify): string {
    HandleAxiosError(f, "Failed to read workflow " + id, stringify).message
  }

  /** updateWorkflow: reads the current workflow, sends the merged payload, and rethrows
      any failure through handleAxiosError. A failed read has already been turned into
      an N8nApiError, which handleAxiosError sees as a plain error: its message is kept
      but its status and code are lost. */
  method UpdateWorkflow(id: string, workflow: Body, read: Result<Body, Transport>, put: Result<Value, Transport>,
                        stringify: Stringify)
    returns (sent: Option<Body>, r: Result<Value, Thrown>)
    ensures read.Failure? ==> sent.None? && r.Failure?
    ensures read.Failure? ==> r.error == Rethrow(Other(Some(JStr(ReadFailureMessage(id, read.error, stringify)))),
                                                 "Failed to update workflow " + id, stringify)
    ensures read.Success? ==>
      sent == Some(UpdatePayload(workflow, read.value, FilteredSettings(SettingsSource(workflow, read.value))))
    ensures read.Success? && put.Success? ==> r == Success(put.value)
    ensures read.Success? && put.Failure? ==> r == Failure(Rethrow(put.error, "Failed to update workflow " + id, stringify))
  {
    if read.Failure? {
      sent := None;
      r := Failure(Rethrow(Other(Some(JStr(ReadFailureMessage(id, read.error, stringify)))),
                           "Failed to update workflow " + id, stringify));
      return;
    }
    var current := read.value;
    var settings := FilterSettings(SettingsSource(workflow, current));
    sent := Some(UpdatePayload(workflow, current, settings));
    r := match put
      case Success(v) => Success(v)
      case Failure(f) => Failure(Rethrow(f, "Failed to update workflow " + id, stringify));
  }

  /** A failed read surfaces from updateWorkflow as an internal error without a status,
      even when the read failed with 404. */
  lemma ReadFailureLosesStatus(id: string, f: Transport, stringify: Stringify)
    requires ReadFailureMessage(id, f, stringify) != ""
    ensures var e := Rethrow(Other(Some(JStr(ReadFailureMessage(id, f, stringify)))),
                             "Failed to update workflow " + id, stringify).error;
      e.code == InternalError && e.statusCode.None? && e.message == ReadFailureMessage(id, f, stringify)
  {
  }
}
