/** src/tools/variable/delete.ts: deletion by id, or by key through a lookup in the
    variable list. */
module VariableHandlers {
  import opened Wrappers
  import opened Json
  import opened Errors
  import opened Entities
  import opened Seqs
  import opened ToolResults

  /** The API calls the handler makes, in order. */
  datatype Call = ListVariables(projectId: Option<string>) | DeleteVariable(id: string)

  /** The first listed variable with the given key. */
  function ByKey(variables: seq<Variable>, key: string): (v: Option<Variable>)
    ensures v.Some? ==> v.value in variables && v.value.key == key
    ensures v.None? ==> forall i :: 0 <= i < |variables| ==> variables[i].key != key
  {
    Find(variables, (x: Variable) => x.key == key)
  }

  /** With several variables sharing a key, the first one is chosen. */
  lemma ByKeyFirst(variables: seq<Variable>, key: string, k: nat)
    requires k < |variables| && variables[k].key == key
    requires forall i :: 0 <= i < k ==> variables[i].key != key
    ensures ByKey(variables, key) == Some(variables[k])
  {
    FindFirst(variables, (x: Variable) => x.key == key, k);
  }

  /** The success message: the id when one was given, else the key. */
  function DeletedText(id: Option<string>, key: Option<string>): string {
    "Variable " + (if HasText(id) then "with ID " + id.value else "with key \"" + (if key.Some? then key.value else "undefined") + "\"") +
    " deleted successfully"
  }

  /** VariableDeleteHandler.execute. `listed` and `deleted` are the outcomes of
      listVariables and deleteVariableById; `calls` lists the calls made. */
  method VariableDeleteTool(id: Option<string>, key: Option<string>, projectId: Option<string>,
                            listed: Result<seq<Variable>, Thrown>, deleted: Result<Value, Thrown>)
    returns (calls: seq<Call>, r: ToolResult)
    ensures !HasText(id) && !HasText(key) ==>
      calls == [] &&
      ReportedError(r) == Some(FamilyFailureText(VariableTools, PlainError("Either variable ID or key is required")))
    // an id wins over a key
    ensures HasText(id) ==> calls == [DeleteVariable(id.value)]
    // by key: list, then delete the first match
    ensures !HasText(id) && HasText(key) ==> |calls| >= 1 && calls[0] == ListVariables(projectId)
    ensures !HasText(id) && HasText(key) && listed.Failure? ==>
      calls == [ListVariables(projectId)] && ReportedError(r) == Some(FamilyFailureText(VariableTools, listed.error))
    ensures !HasText(id) && HasText(key) && listed.Success? && ByKey(listed.value, key.value).None? ==>
      calls == [ListVariables(projectId)] &&
      ReportedError(r) ==
        Some(FamilyFailureText(VariableTools, PlainError("Variable with key \"" + key.value + "\" not found")))
    ensures !HasText(id) && HasText(key) && listed.Success? && ByKey(listed.value, key.value).Some? ==>
      calls == [ListVariables(projectId), DeleteVariable(ByKey(listed.value, key.value).value.id)]
    // whichever variable was deleted, the outcome of the deletion decides the result
    ensures |calls| > 0 && calls[|calls| - 1].DeleteVariable? && deleted.Failure? ==>
      ReportedError(r) == Some(FamilyFailureText(VariableTools, deleted.error))
    ensures |calls| > 0 && calls[|calls| - 1].DeleteVariable? && deleted.Success? ==>
      ReportedSuccess(r) == Some((DeletedText(id, key), deleted.value))
  {
    calls := [];
    if !HasText(id) && !HasText(key) {
      r := HandleExecution(VariableTools, Failure(PlainError("Either variable ID or key is required")));
      return;
    }
    var target: string;
    if HasText(id) {
      target := id.value;
    } else {
      calls := calls + [ListVariables(projectId)];
      if listed.Failure? {
        r := HandleExecution(VariableTools, Failure(listed.error));
        return;
      }
      var found := ByKey(listed.value, key.value);
      if found.None? {
        r := HandleExecution(VariableTools, Failure(PlainError("Variable with key \"" + key.value + "\" not found")));
        return;
      }
      target := found.value.id;
    }
    calls := calls + [DeleteVariable(target)];
    match deleted
    case Failure(t) =>
      r := HandleExecution(VariableTools, Failure(t));
    case Success(result) =>
      r := HandleExecution(VariableTools, Success(FormatSuccess(result, Some(DeletedText(id, key)))));
  }
}
