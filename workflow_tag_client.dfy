/** src/api/workflow-tag-client.ts: the tags of one workflow. */
module WorkflowTagClient {
  import opened Wrappers
  import opened Json
  import opened Errors
  import opened ApiCommon

  /** The update payload: one `{id}` object per tag id, in the same order. */
  function TagRefs(tagIds: seq<string>): (v: Value)
    ensures v.JArr? && |v.items| == |tagIds|
    ensures forall i :: 0 <= i < |tagIds| ==> v.items[i] == JObj(map["id" := JStr(tagIds[i])])
  {
    JArr(seq(|tagIds|, i requires 0 <= i < |tagIds| => JObj(map["id" := JStr(tagIds[i])])))
  }

  /** The ids can be read back from the payload. */
  lemma TagRefsRoundTrip(tagIds: seq<string>)
    ensures var v := TagRefs(tagIds);
      seq(|v.items|, i requires 0 <= i < |v.items| => Get(v.items[i], "id")) ==
      seq(|tagIds|, i requires 0 <= i < |tagIds| => Some(JStr(tagIds[i])))
  {
  }

  function ListWorkflowTags(workflowId: string, outcome: Result<Body, Transport>, stringify: Stringify)
    : (r: Result<Value, Thrown>)
    ensures r.Success? <==> outcome.Success?
    ensures r.Success? ==> r.value == ListData(outcome.value)
    ensures r.Failure? ==> r.error == Rethrow(outcome.error, "Failed to get tags for workflow " + workflowId, stringify)
  {
    match outcome
    case Success(body) => Success(ListData(body))
    case Failure(f) => Failure(Rethrow(f, "Failed to get tags for workflow " + workflowId, stringify))
  }

  function UpdateWorkflowTags(workflowId: string, outcome: Result<Body, Transport>, stringify: Stringify)
    : (r: Result<Value, Thrown>)
    ensures outcome.Success? ==> r == Success(ListData(outcome.value))
    ensures outcome.Failure? && HasStatus(outcome.error, 400) && ResponseText(outcome.error).Some? ==>
      r == Failure(PlainError("Workflow tags update failed due to validation: " + ResponseText(outcome.error).value))
    ensures outcome.Failure? && !(HasStatus(outcome.error, 400) && ResponseText(outcome.error).Some?) ==>
      r == Failure(Rethrow(outcome.error, "Failed to update tags for workflow " + workflowId, stringify))
  {
    match outcome
    case Success(body) => Success(ListData(body))
    case Failure(f) =>
      if HasStatus(f, 400) && ResponseText(f).Some? then
        Failure(PlainError("Workflow tags update failed due to validation: " + ResponseText(f).value))
      else Failure(Rethrow(f, "Failed to update tags for workflow " + workflowId, stringify))
  }
}
