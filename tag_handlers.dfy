/** src/tools/tag/update.ts: the partial update of a tag and its rejection when empty. */
module TagHandlers {
  import opened Wrappers
  import opened Json
  import opened Errors
  import opened ToolResults
  import opened ApiCommon

  /** The fields of a tag update: those of name and color that are given. */
  function TagUpdateFields(name: Option<Value>, color: Option<Value>): (d: Body)
    ensures d.Keys <= {"name", "color"}
    ensures "name" in d <==> name.Some?
    ensures "color" in d <==> color.Some?
    ensures name.Some? ==> d["name"] == name.value
    ensures color.Some? ==> d["color"] == color.value
  {
    (if name.Some? then map["name" := name.value] else map[]) +
    (if color.Some? then map["color" := color.value] else map[])
  }

  /** The conditional assignments that fill `updateData`. */
  method BuildTagUpdate(name: Option<Value>, color: Option<Value>) returns (updateData: Body)
    ensures updateData == TagUpdateFields(name, color)
  {
    updateData := map[];
    if name.Some? {
      updateData := updateData["name" := name.value];
    }
    if color.Some? {
      updateData := updateData["color" := color.value];
    }
  }

  /** The envelope for the outcome of updateTag: the tag, announced by its name. */
  function TagUpdated(call: Result<Value, Thrown>): (r: ToolResult)
    ensures call.Failure? ==> ReportedError(r) == Some(FamilyFailureText(TagTools, call.error))
    ensures call.Success? ==>
      ReportedSuccess(r) == Some(("Tag \"" + DisplayOpt(Get(call.value, "name")) + "\" updated successfully", call.value))
  {
    match call
    case Failure(t) => HandleExecution(TagTools, Failure(t))
    case Success(tag) =>
      HandleExecution(TagTools, Success(FormatSuccess(tag, Some("Tag \"" + DisplayOpt(Get(tag, "name")) + "\" updated successfully"))))
  }

  /** TagUpdateHandler.execute. `call` is the outcome of updateTag; `sent` is the
      id and update data passed to it, when it is called. */
  method TagUpdateTool(id: Option<string>, name: Option<Value>, color: Option<Value>, call: Result<Value, Thrown>)
    returns (sent: Option<(string, Body)>, r: ToolResult)
    ensures !HasText(id) ==>
      sent.None? && ReportedError(r) == Some(FamilyFailureText(TagTools, PlainError("Tag ID is required")))
    ensures HasText(id) && name.None? && color.None? ==>
      sent.None? &&
      ReportedError(r) == Some(FamilyFailureText(TagTools, PlainError("At least one field to update is required")))
    ensures HasText(id) && (name.Some? || color.Some?) ==>
      sent == Some((id.value, TagUpdateFields(name, color))) && "id" !in sent.value.1 && r == TagUpdated(call)
  {
    sent := None;
    if !HasText(id) {
      r := HandleExecution(TagTools, Failure(PlainError("Tag ID is required")));
      return;
    }
    var updateData := BuildTagUpdate(name, color);
    if |updateData| == 0 {
      r := HandleExecution(TagTools, Failure(PlainError("At least one field to update is required")));
      return;
    }
    sent := Some((id.value, updateData));
    r := TagUpdated(call);
  }
}
