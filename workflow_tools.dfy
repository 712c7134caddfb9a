/** The workflow tools: the `active` filter and projection of
    src/tools/workflow/list.ts, the change detection of src/tools/workflow/update.ts
    and the validation and defaults of src/tools/workflow/create.ts. */
module WorkflowTools {
  import opened Wrappers
  import opened Json
  import opened Errors
  import opened Entities
  import opened Seqs
  import opened ToolResults
  import opened ApiCommon
  import Text

  /** The fields a workflow tool reports about one workflow. */
  datatype WorkflowRow = WorkflowRow(id: string, name: string, active: bool, updatedAt: string)

  function Row(w: Workflow): (row: WorkflowRow)
    ensures row.id == w.id && row.name == w.name && row.active == w.active && row.updatedAt == w.updatedAt
  {
    WorkflowRow(w.id, w.name, w.active, w.updatedAt)
  }

  /** The id, name and active flag that update_workflow and create_workflow report. */
  datatype WorkflowBrief = WorkflowBrief(id: string, name: string, active: bool)

  function Brief(w: Workflow): (b: WorkflowBrief)
    ensures b.id == w.id && b.name == w.name && b.active == w.active
  {
    WorkflowBrief(w.id, w.name, w.active)
  }

  // ---- list_workflows ----

  /** The " (filtered by active=…)" note, present only for a boolean `active`. */
  function FilterNote(active: Option<Value>): string {
    if active.Some? && active.value.JBool? then " (filtered by active=" + BoolText(active.value.b) + ")" else ""
  }

  /** The filter of list_workflows: a workflow passes when its flag is the requested one. */
  function HasFlag(b: bool): Workflow -> bool {
    (w: Workflow) => w.active == b
  }

  /** ListWorkflowsHandler.execute: with a boolean `active`, only the workflows with that
      flag, otherwise all; each reduced to id, name, active and updatedAt, in order. */
  function ListWorkflowsTool(workflows: seq<Workflow>, active: Option<Value>): (r: Reply<seq<WorkflowRow>>)
    ensures active.Some? && active.value.JBool? ==>
      forall i :: 0 <= i < |r.data| ==> r.data[i].active == active.value.b
    // with a boolean flag: the rows of the flagged workflows, in input order
    ensures active.Some? && active.value.JBool? ==>
      var kept := Filter(workflows, HasFlag(active.value.b));
      |r.data| == |kept| && forall i :: 0 <= i < |kept| ==> r.data[i] == Row(kept[i])
    ensures !(active.Some? && active.value.JBool?) ==>
      |r.data| == |workflows| && forall i :: 0 <= i < |workflows| ==> r.data[i] == Row(workflows[i])
    ensures |r.data| <= |workflows|
    ensures r.message == "Found " + Text.NatToString(|r.data|) + " workflow(s)" + FilterNote(active)
  {
    var kept := if active.Some? && active.value.JBool? then Filter(workflows, HasFlag(active.value.b)) else workflows;
    assert forall i :: 0 <= i < |kept| ==> kept[i] in kept;
    var rows := seq(|kept|, i requires 0 <= i < |kept| => Row(kept[i]));
    Reply(rows, "Found " + Text.NatToString(|rows|) + " workflow(s)" + FilterNote(active))
  }

  /** No workflow with the requested flag is lost: each one's row is in the list. */
  lemma ListWorkflowsComplete(workflows: seq<Workflow>, b: bool, w: Workflow)
    requires w in workflows && w.active == b
    ensures Row(w) in ListWorkflowsTool(workflows, Some(JBool(b))).data
  {
    var p := HasFlag(b);
    FilterKeeps(workflows, p, w);
    var kept := Filter(workflows, p);
    var i :| 0 <= i < |kept| && kept[i] == w;
    assert ListWorkflowsTool(workflows, Some(JBool(b))).data[i] == Row(w);
  }

  // ---- update_workflow ----

  /** The arguments of update_workflow; an absent argument is `None`. */
  datatype UpdateArgs = UpdateArgs(workflowId: Option<string>, name: Option<Value>, nodes: Option<Value>,
                                   connections: Option<Value>, active: Option<Value>, tags: Option<Value>)

  /** The API calls the handler makes, in order. */
  datatype Call = GetWorkflow(id: string) | PutWorkflow(id: string, data: Body) | PutTags(id: string, tags: Value)

  /** What update_workflow reports: the unchanged workflow, or id, name and active. */
  datatype UpdateData = Unchanged(workflow: Workflow) | Updated(brief: WorkflowBrief)

  /** The defined arguments among name, nodes, connections and active. */
  function UpdateFields(args: UpdateArgs): (d: Body)
    ensures d.Keys <= {"name", "nodes", "connections", "active"}
    ensures "name" in d <==> args.name.Some?
    ensures "nodes" in d <==> args.nodes.Some?
    ensures "connections" in d <==> args.connections.Some?
    ensures "active" in d <==> args.active.Some?
    ensures args.name.Some? ==> d["name"] == args.name.value
    ensures args.nodes.Some? ==> d["nodes"] == args.nodes.value
    ensures args.connections.Some? ==> d["connections"] == args.connections.value
    ensures args.active.Some? ==> d["active"] == args.active.value
  {
    var withName: Body := if args.name.Some? then map["name" := args.name.value] else map[];
    var withNodes := if args.nodes.Some? then withName["nodes" := args.nodes.value] else withName;
    var withConnections :=
      if args.connections.Some? then withNodes["connections" := args.connections.value] else withNodes;
    if args.active.Some? then withConnections["active" := args.active.value] else withConnections
  }

  /** The update data is empty exactly when none of the four fields is given. */
  lemma UpdateFieldsEmpty(args: UpdateArgs)
    ensures |UpdateFields(args)| == 0 <==>
      args.name.None? && args.nodes.None? && args.connections.None? && args.active.None?
  {
    var d := UpdateFields(args);
    if args.name.Some? || args.nodes.Some? || args.connections.Some? || args.active.Some? {
      var k := if args.name.Some? then "name" else if args.nodes.Some? then "nodes"
               else if args.connections.Some? then "connections" else "active";
      assert k in d.Keys;
      assert |d.Keys| > 0;
    } else {
      assert d == map[];
    }
  }

  const Arrow := " \U{2192} "

  /** One entry of the change summary. */
  datatype Change = Renamed(from: string, to: Value) | Toggled(was: bool, now: Value)
                  | NodesUpdated | ConnectionsUpdated | TagsUpdated
  {
    function Text(): string {
      match this
      case Renamed(from, to) => "name: \"" + from + "\"" + Arrow + "\"" + Display(to) + "\""
      case Toggled(was, now) => "active: " + BoolText(was) + Arrow + Display(now)
      case NodesUpdated => "nodes updated"
      case ConnectionsUpdated => "connections updated"
      case TagsUpdated => "tags updated"
    }
  }

  /** The rename and the toggle, each listed only when the value differs from the
      current one. */
  function EditChanges(args: UpdateArgs, current: Workflow): (cs: seq<Change>)
    ensures |cs| <= 2
    ensures args.name.Some? ==>
      (Renamed(current.name, args.name.value) in cs <==> args.name.value != JStr(current.name))
    ensures args.active.Some? ==>
      (Toggled(current.active, args.active.value) in cs <==> args.active.value != JBool(current.active))
    ensures forall c :: c in cs ==> c.Renamed? || c.Toggled?
    ensures forall c :: c in cs && c.Renamed? ==> args.name.Some? && c == Renamed(current.name, args.name.value)
    ensures forall c :: c in cs && c.Toggled? ==> args.active.Some? && c == Toggled(current.active, args.active.value)
  {
    (if args.name.Some? && args.name.value != JStr(current.name) then [Renamed(current.name, args.name.value)] else []) +
    (if args.active.Some? && args.active.value != JBool(current.active)
     then [Toggled(current.active, args.active.value)] else [])
  }

  /** Nodes, connections and tags, each listed whenever it is given. */
  function GivenChanges(args: UpdateArgs): (cs: seq<Change>)
    ensures |cs| <= 3
    ensures forall c :: c in cs ==> c.NodesUpdated? || c.ConnectionsUpdated? || c.TagsUpdated?
    ensures NodesUpdated in cs <==> args.nodes.Some?
    ensures ConnectionsUpdated in cs <==> args.connections.Some?
    ensures TagsUpdated in cs <==> args.tags.Some?
  {
    (if args.nodes.Some? then [NodesUpdated] else []) +
    (if args.connections.Some? then [ConnectionsUpdated] else []) +
    (if args.tags.Some? then [TagsUpdated] else [])
  }

  /** The changes the success message reports, edits first. */
  function Changes(args: UpdateArgs, current: Workflow): (cs: seq<Change>)
    ensures |cs| <= 5
  {
    EditChanges(args, current) + GivenChanges(args)
  }

  /** The change summary: the listed changes joined by ", ", or a generic text when
      there are none. */
  function ChangesSummary(cs: seq<Change>): string {
    if |cs| > 0 then "Changes applied: " + Text.Join(seq(|cs|, i requires 0 <= i < |cs| => cs[i].Text()), ", ")
    else "Workflow updated successfully"
  }

  const NoChanges := "No changes requested - workflow unchanged"

  /** The conditional assignments that fill `updateData`. */
  method BuildUpdateData(args: UpdateArgs) returns (updateData: Body)
    ensures updateData == UpdateFields(args)
  {
    updateData := map[];
    if args.name.Some? {
      updateData := updateData["name" := args.name.value];
    }
    if args.nodes.Some? {
      updateData := updateData["nodes" := args.nodes.value];
    }
    if args.connections.Some? {
      updateData := updateData["connections" := args.connections.value];
    }
    if args.active.Some? {
      updateData := updateData["active" := args.active.value];
    }
  }

  /** The first two pushes onto `changesArray`: the rename and the toggle. */
  method CollectEdits(args: UpdateArgs, current: Workflow) returns (edits: seq<Change>)
    ensures edits == EditChanges(args, current)
  {
    edits := [];
    if args.name.Some? && args.name.value != JStr(current.name) {
      edits := edits + [Renamed(current.name, args.name.value)];
    }
    if args.active.Some? && args.active.value != JBool(current.active) {
      edits := edits + [Toggled(current.active, args.active.value)];
    }
  }

  /** The last three pushes onto `changesArray`, after the given ones. */
  method CollectGiven(args: UpdateArgs, edits: seq<Change>) returns (changes: seq<Change>)
    ensures changes == edits + GivenChanges(args)
  {
    ghost var given: seq<Change> := [];
    changes := edits;
    if args.nodes.Some? {
      given := given + [NodesUpdated];
      changes := changes + [NodesUpdated];
    }
    assert changes == edits + given;
    if args.connections.Some? {
      given := given + [ConnectionsUpdated];
      changes := changes + [ConnectionsUpdated];
    }
    assert changes == edits + given;
    if args.tags.Some? {
      given := given + [TagsUpdated];
      changes := changes + [TagsUpdated];
    }
    assert changes == edits + given;
    assert given == GivenChanges(args);
  }

  /** The pushes that fill `changesArray`, edits first. */
  method CollectChanges(args: UpdateArgs, current: Workflow) returns (changes: seq<Change>)
    ensures changes == Changes(args, current)
  {
    var edits := CollectEdits(args, current);
    changes := CollectGiven(args, edits);
  }

  /** The calls made after the current workflow has been read: the update when some
      field is given, then the tag update when tags are given. */
  function WriteCalls(args: UpdateArgs, id: string): seq<Call> {
    (if |UpdateFields(args)| > 0 then [PutWorkflow(id, UpdateFields(args))] else []) +
    (if args.tags.Some? then [PutTags(id, args.tags.value)] else [])
  }

  /** The part of UpdateWorkflowHandler.execute after the current workflow was read. */
  method ApplyUpdate(args: UpdateArgs, id: string, current: Workflow, update: Result<Workflow, Thrown>)
    returns (calls: seq<Call>, r: Result<Reply<UpdateData>, Thrown>)
    // nothing to change: the current workflow, no call
    ensures |UpdateFields(args)| == 0 && args.tags.None? ==>
      calls == [] && r == Success(Reply(Unchanged(current), NoChanges))
    // a failed update fails the tool, and the tags are left alone
    ensures |UpdateFields(args)| > 0 && update.Failure? ==>
      calls == [PutWorkflow(id, UpdateFields(args))] && r == Failure(update.error)
    // otherwise success, whatever the tag update did
    ensures (|UpdateFields(args)| > 0 || args.tags.Some?) && (|UpdateFields(args)| == 0 || update.Success?) ==>
      var after := if |UpdateFields(args)| > 0 then update.value else current;
      calls == WriteCalls(args, id) &&
      r == Success(Reply(Updated(Brief(after)),
                         "Workflow updated successfully. " + ChangesSummary(Changes(args, current))))
  {
    calls := [];
    var updateData := BuildUpdateData(args);
    if |updateData| == 0 && args.tags.None? {
      r := Success(Reply(Unchanged(current), NoChanges));
      return;
    }

    var updated := current;
    if |updateData| > 0 {
      calls := calls + [PutWorkflow(id, updateData)];
      if update.Failure? {
        r := Failure(update.error);
        return;
      }
      updated := update.value;
    }
    if args.tags.Some? {
      // the outcome of the tag update is ignored
      calls := calls + [PutTags(id, args.tags.value)];
    }

    var changes := CollectChanges(args, current);
    r := Success(Reply(Updated(Brief(updated)), "Workflow updated successfully. " + ChangesSummary(changes)));
  }

  /** UpdateWorkflowHandler.execute. `read`, `update` and `tagging` are the outcomes of
      getWorkflow, updateWorkflow and updateWorkflowTags; `calls` lists the calls made. */
  method UpdateWorkflowTool(args: UpdateArgs, read: Result<Workflow, Thrown>, update: Result<Workflow, Thrown>,
                            tagging: Result<Value, Thrown>, stringify: Stringify)
    returns (calls: seq<Call>, r: Result<Reply<UpdateData>, Thrown>)
    // no id: fail before any call
    ensures !HasText(args.workflowId) ==>
      calls == [] && r == Failure(ApiErr(NewApiError("Missing required parameter: workflowId", None, None, stringify)))
    // the current workflow cannot be read: reported as not found, whatever the cause
    ensures HasText(args.workflowId) && read.Failure? ==>
      calls == [GetWorkflow(args.workflowId.value)] &&
      r == Failure(ApiErr(NewApiError("Workflow " + args.workflowId.value + " not found", Some(404), None, stringify)))
    // nothing to change: the current workflow, no further call
    ensures HasText(args.workflowId) && read.Success? && |UpdateFields(args)| == 0 && args.tags.None? ==>
      calls == [GetWorkflow(args.workflowId.value)] && r == Success(Reply(Unchanged(read.value), NoChanges))
    // a failed update fails the tool
    ensures HasText(args.workflowId) && read.Success? && |UpdateFields(args)| > 0 && update.Failure? ==>
      calls == [GetWorkflow(args.workflowId.value), PutWorkflow(args.workflowId.value, UpdateFields(args))] &&
      r == Failure(update.error)
    // otherwise success, whatever the tag update did
    ensures HasText(args.workflowId) && read.Success? && (|UpdateFields(args)| > 0 || args.tags.Some?) &&
            (|UpdateFields(args)| == 0 || update.Success?) ==>
      var after := if |UpdateFields(args)| > 0 then update.value else read.value;
      calls == [GetWorkflow(args.workflowId.value)] + WriteCalls(args, args.workflowId.value) &&
      r == Success(Reply(Updated(Brief(after)),
                         "Workflow updated successfully. " + ChangesSummary(Changes(args, read.value))))
  {
    calls := [];
    if !HasText(args.workflowId) {
      r := Failure(ApiErr(NewApiError("Missing required parameter: workflowId", None, None, stringify)));
      return;
    }
    var id := args.workflowId.value;
    calls := calls + [GetWorkflow(id)];
    if read.Failure? {
      r := Failure(ApiErr(NewApiError("Workflow " + id + " not found", Some(404), None, stringify)));
      return;
    }
    var writes;
    writes, r := ApplyUpdate(args, id, read.value, update);
    calls := calls + writes;
  }

  /** The update call carries exactly the defined fields, and is made only when there
      are some. */
  lemma WriteCallsCarryFields(args: UpdateArgs, id: string, c: Call)
    requires c in WriteCalls(args, id) && c.PutWorkflow?
    ensures c == PutWorkflow(id, UpdateFields(args)) && |c.data| > 0
  {
  }

  /** A request that changes nothing actually present still counts as an update, but
      its summary falls back to the generic text. */
  lemma SameValuesGenericSummary(args: UpdateArgs, current: Workflow)
    requires args.name == Some(JStr(current.name)) && args.active == Some(JBool(current.active))
    requires args.nodes.None? && args.connections.None? && args.tags.None?
    ensures |UpdateFields(args)| == 2
    ensures ChangesSummary(Changes(args, current)) == "Workflow updated successfully"
  {
    assert UpdateFields(args).Keys == {"name", "active"};
  }

  // ---- create_workflow ----

  datatype CreateArgs = CreateArgs(name: Option<Value>, nodes: Option<Value>, connections: Option<Value>,
                                   active: Option<Value>, tags: Option<Value>)

  /** The argument checks of CreateWorkflowHandler.execute, in their order. */
  function CreateProblem(args: CreateArgs): (m: Option<string>)
    ensures !TruthyOpt(args.name) ==> m == Some("Missing required parameter: name")
    ensures TruthyOpt(args.name) && TruthyOpt(args.nodes) && !args.nodes.value.JArr? ==>
      m == Some("Parameter \"nodes\" must be an array")
    ensures m.None? <==>
      TruthyOpt(args.name) &&
      (TruthyOpt(args.nodes) ==> args.nodes.value.JArr?) &&
      (TruthyOpt(args.connections) ==> args.connections.value.JObj? || args.connections.value.JArr?) &&
      (TruthyOpt(args.tags) ==> args.tags.value.JArr?)
  {
    if !TruthyOpt(args.name) then Some("Missing required parameter: name")
    else if TruthyOpt(args.nodes) && !args.nodes.value.JArr? then Some("Parameter \"nodes\" must be an array")
    // typeof is 'object' for arrays and objects; null is falsy and never reaches here
    else if TruthyOpt(args.connections) && !(args.connections.value.JObj? || args.connections.value.JArr?) then
      Some("Parameter \"connections\" must be an object")
    else if TruthyOpt(args.tags) && !args.tags.value.JArr? then Some("Parameter \"tags\" must be an array of strings")
    else None
  }

  /** `v || fallback` for a possibly undefined argument. */
  function OrElse(v: Option<Value>, fallback: Value): (r: Value)
    ensures TruthyOpt(v) ==> r == v.value
    ensures !TruthyOpt(v) ==> r == fallback
  {
    if TruthyOpt(v) then v.value else fallback
  }

  /** The workflow sent to createWorkflow: the name, `active` only when exactly true, and
      empty nodes, connections and tags by default. */
  function CreatePayload(args: CreateArgs): (p: Body)
    requires args.name.Some?
    ensures p.Keys == {"name", "active", "nodes", "connections", "tags"}
    ensures p["name"] == args.name.value
    ensures p["active"] == JBool(args.active == Some(JBool(true)))
    ensures p["nodes"] == OrElse(args.nodes, JArr([]))
    ensures p["connections"] == OrElse(args.connections, JObj(map[]))
    ensures p["tags"] == OrElse(args.tags, JArr([]))
  {
    map["name" := args.name.value, "active" := JBool(args.active == Some(JBool(true))),
        "nodes" := OrElse(args.nodes, JArr([])), "connections" := OrElse(args.connections, JObj(map[])),
        "tags" := OrElse(args.tags, JArr([]))]
  }

  /** CreateWorkflowHandler.execute; `created` is the outcome of createWorkflow. */
  function CreateWorkflowTool(args: CreateArgs, created: Result<Workflow, Thrown>, stringify: Stringify)
    : (r: Result<Reply<WorkflowBrief>, Thrown>)
    ensures CreateProblem(args).Some? ==>
      r == Failure(ApiErr(NewApiError(CreateProblem(args).value, None, None, stringify)))
    ensures CreateProblem(args).None? && created.Failure? ==> r == Failure(created.error)
    ensures CreateProblem(args).None? && created.Success? ==>
      r == Success(Reply(Brief(created.value), "Workflow created successfully"))
  {
    if CreateProblem(args).Some? then Failure(ApiErr(NewApiError(CreateProblem(args).value, None, None, stringify)))
    else if created.Failure? then Failure(created.error)
    else Success(Reply(Brief(created.value), "Workflow created successfully"))
  }

  /** A rejected argument fails before the API is called: the outcome of the call
      does not matter. */
  lemma CreateRejectsBeforeCall(args: CreateArgs, c1: Result<Workflow, Thrown>, c2: Result<Workflow, Thrown>,
                                stringify: Stringify)
    requires CreateProblem(args).Some?
    ensures CreateWorkflowTool(args, c1, stringify) == CreateWorkflowTool(args, c2, stringify)
    ensures CreateWorkflowTool(args, c1, stringify).error.error.code == InternalError
  {
    PlainApiError(CreateProblem(args).value, stringify);
  }
}
