/** src/resources/static/variables.ts: counts by type, the system/user split and the
    first five variables. */
module VariablesResource {
  import opened Wrappers
  import opened Json
  import opened Errors
  import opened Entities
  import opened Seqs
  import opened ResourceCommon

  function TypeOf(v: Variable): Option<string> {
    v.varType
  }

  /** `byType`: one entry per variable type, in declaration order, with the number of
      variables of that type. */
  function ByType(variables: seq<Variable>): (byType: seq<(string, nat)>)
    ensures |byType| == |VariableTypeNames|
    ensures forall i :: 0 <= i < |byType| ==>
      byType[i].0 == VariableTypeNames[i] && byType[i].1 == KeyCount(variables, TypeOf, VariableTypeNames[i])
  {
    seq(|VariableTypeNames|, i requires 0 <= i < |VariableTypeNames| =>
      (VariableTypeNames[i], KeyCount(variables, TypeOf, VariableTypeNames[i])))
  }

  /** Every variable type has exactly one entry, holding its count. */
  lemma ByTypeEntry(variables: seq<Variable>, t: VariableType)
    ensures exists i :: 0 <= i < |ByType(variables)| && ByType(variables)[i] == (t.Name(), KeyCount(variables, TypeOf, t.Name()))
    ensures forall i, j :: 0 <= i < j < |ByType(variables)| ==> ByType(variables)[i].0 != ByType(variables)[j].0
  {
    VariableTypeNamesComplete(t);
    var i :| 0 <= i < |VariableTypeNames| && VariableTypeNames[i] == t.Name();
    assert ByType(variables)[i] == (t.Name(), KeyCount(variables, TypeOf, t.Name()));
  }

  /** The by-type counts never exceed the number of variables: each variable has at
      most one type. */
  lemma ByTypeTotal(variables: seq<Variable>)
    ensures KeyCounts(variables, TypeOf, VariableTypeNames) <= |variables|
  {
    VariableTypeNamesComplete(StringVar);
    KeyCountsBound(variables, TypeOf, VariableTypeNames);
  }

  /** One entry of `recentVariables`. */
  datatype VariableEntry = VariableEntry(id: string, key: string, varType: string, projectId: Option<string>,
                                         isSystem: bool)

  function Entry(v: Variable): (e: VariableEntry)
    ensures e.id == v.id && e.key == v.key && e.projectId == v.projectId
    ensures e.varType == if HasText(v.varType) then v.varType.value else "string"
    ensures e.isSystem <==> v.isSystem == Some(true)
  {
    VariableEntry(v.id, v.key, if HasText(v.varType) then v.varType.value else "string", v.projectId,
                  v.isSystem == Some(true))
  }

  datatype VariablesResource = VariablesResource(count: nat, byType: seq<(string, nat)>, system: nat, user: nat,
                                                 recentVariables: seq<VariableEntry>)

  const FailurePrefix := "Failed to retrieve variables: "

  /** getVariablesResource; `listed` is the outcome of listVariables. */
  function GetVariablesResource(listed: Result<seq<Variable>, Thrown>): (r: Result<VariablesResource, Thrown>)
    ensures listed.Failure? ==> r == Failure(ResourceFailure(FailurePrefix, listed.error))
    ensures listed.Success? ==>
      r.Success? && r.value.count == |listed.value| && r.value.system + r.value.user == r.value.count &&
      r.value.system == Count(listed.value, (v: Variable) => v.isSystem == Some(true)) &&
      r.value.byType == ByType(listed.value) &&
      |r.value.recentVariables| == (if |listed.value| < 5 then |listed.value| else 5) &&
      forall i :: 0 <= i < |r.value.recentVariables| ==> r.value.recentVariables[i] == Entry(listed.value[i])
  {
    match listed
    case Failure(t) => Failure(ResourceFailure(FailurePrefix, t))
    case Success(vs) =>
      var system := Count(vs, (v: Variable) => v.isSystem == Some(true));
      var recent := Take(vs, 5);
      Success(VariablesResource(|vs|, ByType(vs), system, |vs| - system,
                                seq(|recent|, i requires 0 <= i < |recent| => Entry(recent[i]))))
  }
}
