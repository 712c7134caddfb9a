/** The execution tools: local filtering and limiting in src/tools/execution/list.ts,
    and the string handling and error shaping of the webhook runner in
    src/tools/execution/run.ts. */
module ExecutionTools {
  import opened Wrappers
  import opened Json
  import opened Errors
  import opened Entities
  import opened Seqs
  import opened ExecutionFormatter
  import opened ToolResults
  import Text

  // ---- list_executions ----

  datatype ListArgs = ListArgs(workflowId: Option<string>, status: Option<string>, limit: Option<int>,
                               includeSummary: bool)

  datatype ExecutionList = ExecutionList(executions: seq<ExecutionSummary>, summary: Option<ExecutionsSummary>,
                                         count: nat, filtersApplied: bool, totalAvailable: nat)

  /** An execution passes every filter that was given. */
  predicate Selected(args: ListArgs, e: Execution) {
    (HasText(args.workflowId) ==> e.workflowId == args.workflowId.value) &&
    (HasText(args.status) ==> e.status == args.status)
  }

  function Selector(args: ListArgs): Execution -> bool {
    e => Selected(args, e)
  }

  /** The executions that pass the filters, in their original order. */
  function Matching(executions: seq<Execution>, args: ListArgs): (r: seq<Execution>)
    ensures |r| <= |executions|
    ensures forall i :: 0 <= i < |r| ==> Selected(args, r[i]) && r[i] in executions
  {
    var r := Filter(executions, Selector(args));
    assert forall i :: 0 <= i < |r| ==> r[i] in r;
    r
  }

  /** Every execution that passes the filters is among the matches. */
  lemma MatchingComplete(executions: seq<Execution>, args: ListArgs, e: Execution)
    requires e in executions && Selected(args, e)
    ensures e in Matching(executions, args)
  {
    FilterKeeps(executions, Selector(args), e);
  }

  /** How many matches are shown: `limit` when it is positive and smaller, else all. */
  function Shown(args: ListArgs, matching: nat): (n: nat)
    ensures n <= matching
    ensures args.limit.Some? && args.limit.value > 0 ==> n <= args.limit.value
  {
    if args.limit.Some? && args.limit.value > 0 && args.limit.value < matching then args.limit.value else matching
  }

  /** The filtering steps of ListExecutionsHandler.execute: by workflow when one is
      given, then by status when one is given. */
  method ApplyFilters(executions: seq<Execution>, args: ListArgs) returns (filtered: seq<Execution>)
    ensures filtered == Matching(executions, args)
  {
    filtered := executions;
    ghost var byWorkflow := (e: Execution) => HasText(args.workflowId) ==> e.workflowId == args.workflowId.value;
    ghost var byStatus := (e: Execution) => HasText(args.status) ==> e.status == args.status;
    if HasText(args.workflowId) {
      var sameWorkflow := (e: Execution) => e.workflowId == args.workflowId.value;
      filtered := Filter(filtered, sameWorkflow);
      FilterExt(executions, sameWorkflow, byWorkflow);
    } else {
      FilterAll(executions, byWorkflow);
    }
    ghost var afterWorkflow := filtered;
    if HasText(args.status) {
      var sameStatus := (e: Execution) => e.status == args.status;
      filtered := Filter(filtered, sameStatus);
      FilterExt(afterWorkflow, sameStatus, byStatus);
    } else {
      FilterAll(afterWorkflow, byStatus);
    }
    FilterFilter(executions, byWorkflow, byStatus, Selector(args));

  }

  /** ListExecutionsHandler.execute: filter by workflow, then by status, cut to the
      limit, format each execution; the summary and `totalAvailable` look at the
      unfiltered list. */
  method ListExecutions(executions: seq<Execution>, args: ListArgs) returns (r: Reply<ExecutionList>)
    ensures r.data.count == |r.data.executions| == Shown(args, |Matching(executions, args)|)
    ensures forall i :: 0 <= i < r.data.count ==>
      r.data.executions[i] == FormatExecutionSummary(Matching(executions, args)[i])
    ensures HasText(args.workflowId) ==>
      forall i :: 0 <= i < r.data.count ==> r.data.executions[i].workflowId == args.workflowId.value
    ensures r.data.filtersApplied <==> HasText(args.workflowId) || HasText(args.status)
    ensures r.data.totalAvailable == |executions|
    ensures r.data.summary.Some? <==> args.includeSummary
    ensures r.data.summary.Some? ==>
      r.data.summary.value.totalAvailable == |executions| &&
      r.data.summary.value.total == (if |executions| < 10 then |executions| else 10) &&
      CountSum(r.data.summary.value.byStatus) == r.data.summary.value.total
    // the rows and the success rate describe the first ten of the unfiltered list
    ensures r.data.summary.Some? ==>
      var keys := StatusKeys(SliceTo(executions, 10));
      var s := r.data.summary.value;
      |s.byStatus| == |Distinct(keys)| &&
      (forall i :: 0 <= i < |s.byStatus| ==>
         s.byStatus[i].status == StatusIndicator(Some(Distinct(keys)[i])) + " " + Distinct(keys)[i] &&
         s.byStatus[i].count == Occurrences(keys, Distinct(keys)[i]) &&
         s.byStatus[i].percentage == Percent(s.byStatus[i].count, s.total)) &&
      s.successRate == Text.NatToString(Percent(Occurrences(keys, "success"), s.total)) + "%"
    ensures r.message == "Found " + Text.NatToString(r.data.count) + " execution(s)" +
      (if r.data.filtersApplied then " matching filters." else ".")
  {
    var filtered := ApplyFilters(executions, args);
    var limit: nat := if args.limit.Some? && args.limit.value > 0 then args.limit.value else |filtered|;
    filtered := Take(filtered, limit);

    var formatted := seq(|filtered|, i requires 0 <= i < |filtered| => FormatExecutionSummary(filtered[i]));
    var summary: Option<ExecutionsSummary> := None;
    if args.includeSummary {
      var s := SummarizeExecutions(executions, 10);
      summary := Some(s);
    }
    var filtersApplied := HasText(args.workflowId) || HasText(args.status);
    r := Reply(ExecutionList(formatted, summary, |formatted|, filtersApplied, |executions|),
               "Found " + Text.NatToString(|formatted|) + " execution(s)" +
               (if filtersApplied then " matching filters." else "."));
  }

  // ---- run_webhook ----

  /** getN8nBaseUrl's path handling: a trailing "/api/v1" or "/api/v1/" is removed. */
  method BasePath(path: string) returns (base: string)
    ensures Text.EndsWith(path, "/api/v1") ==> base + "/api/v1" == path
    ensures Text.EndsWith(path, "/api/v1/") ==> base + "/api/v1/" == path
    ensures !Text.EndsWith(path, "/api/v1") && !Text.EndsWith(path, "/api/v1/") ==> base == path
  {
    base := path;
    if Text.EndsWith(path, "/api/v1") {
      assert path[|path| - 1] == '1' by { assert path[|path| - 7..][6] == '1'; }
      base := path[..|path| - 7];
      assert base + "/api/v1" == path;
    } else if Text.EndsWith(path, "/api/v1/") {
      base := path[..|path| - 8];
      assert base + "/api/v1/" == path;
    }
  }

  /** The workflow name with every '/' removed. */
  function SafeWorkflowName(name: string): (safe: string)
    ensures '/' !in safe
  {
    Text.RemoveAll(name, '/')
  }

  /** Removing the slashes keeps every other character, in order. */
  lemma {:induction false} SafeNameKeepsOrder(name: string)
    ensures SafeWorkflowName(name) == Filter(name, ch => ch != '/')
  {
    if name != [] {
      SafeNameKeepsOrder(name[1..]);
      assert name == [name[0]] + name[1..];
      FilterAppend([name[0]], name[1..], ch => ch != '/');
      assert [name[0]][..0] == [];
    }
  }

  /** A name without slashes is used unchanged. */
  lemma SafeNameUnchanged(name: string)
    requires '/' !in name
    ensures SafeWorkflowName(name) == name
  {
    SafeNameKeepsOrder(name);
    FilterAll(name, ch => ch != '/');
  }

  /** The path the webhook is called on, relative to the base URL. */
  function WebhookPath(workflowName: string): (p: string)
    ensures "webhook/" <= p
    ensures p[|"webhook/"|..] == SafeWorkflowName(workflowName)
  {
    "webhook/" + SafeWorkflowName(workflowName)
  }

  const JsonContentType := "application/json"

  /** The request headers: Content-Type application/json unless the caller overrides it. */
  function Headers(user: Option<map<string, string>>): (h: map<string, string>)
    ensures h.Keys == {"Content-Type"} + (if user.Some? then user.value.Keys else {})
    ensures user.Some? ==> forall k :: k in user.value ==> h[k] == user.value[k]
    ensures user.None? || "Content-Type" !in user.value ==> h["Content-Type"] == JsonContentType
  {
    map["Content-Type" := JsonContentType] + (if user.Some? then user.value else map[])
  }

  /** The request body: the given data, or an empty object. */
  function WebhookBody(data: Option<map<string, Value>>): (b: Value)
    ensures b.JObj?
    ensures data.Some? ==> b.fields == data.value
    ensures data.None? ==> b.fields == map[]
  {
    JObj(if data.Some? then data.value else map[])
  }

  /** What the webhook call produced. */
  datatype WebhookOutcome =
    | Answered(status: int, statusText: string, data: Value)
    | Refused(failStatus: int, failText: string, failData: Option<Value>)  // an axios error with a response
    | Unreachable(message: string)                                        // an axios error without one
    | Crashed(thrown: Thrown)                                             // anything that is not an axios error

  datatype WebhookReply = WebhookReply(status: int, statusText: string, data: Value)

  /** What a run ends in: a success reply, an error passed to formatError, or a rethrow. */
  datatype RunResult = Ran(reply: Reply<WebhookReply>) | Reported(error: ApiError) | Rethrown(thrown: Thrown)

  const StringifyFallback := "[Could not stringify response data]"

  /** The response data as pretty-printed JSON text, or the fall-back when
      serialisation throws; undefined data reads "undefined". */
  function ResponseDataText(data: Option<Value>, pretty: Stringify): string {
    if data.None? then "undefined" else pretty(data.value).GetOr(StringifyFallback)
  }

  /** The catch block of RunWebhookHandler.execute and its success return. */
  function RunWebhook(outcome: WebhookOutcome, pretty: Stringify, stringify: Stringify): (r: RunResult)
    ensures outcome.Answered? ==>
      r == Ran(Reply(WebhookReply(outcome.status, outcome.statusText, outcome.data), "Webhook executed successfully"))
    ensures outcome.Refused? ==>
      r.Reported? &&
      ("Webhook execution failed with status " + Text.IntToString(outcome.failStatus) + ": " + outcome.failText +
       "\n\n" + ResponseDataText(outcome.failData, pretty)) <= r.error.message &&
      r.error.statusCode == Some(if outcome.failStatus != 0 then outcome.failStatus else 500)
    ensures outcome.Unreachable? ==>
      r.Reported? &&
      ("Webhook execution failed: " + outcome.message) <= r.error.message &&
      r.error.statusCode == Some(500) && r.error.code == InternalError
    ensures outcome.Crashed? ==> r == Rethrown(outcome.thrown)
  {
    match outcome
    case Answered(status, statusText, data) =>
      Ran(Reply(WebhookReply(status, statusText, data), "Webhook executed successfully"))
    case Refused(status, statusText, data) =>
      var message := "Webhook execution failed with status " + Text.IntToString(status) + ": " + statusText;
      Reported(NewApiError(message + "\n\n" + ResponseDataText(data, pretty),
                           Some(if status != 0 then status else 500), None, stringify))
    case Unreachable(message) =>
      Reported(NewApiError("Webhook execution failed: " + message, Some(500), None, stringify))
    case Crashed(t) => Rethrown(t)
  }

  /** A refused call always reports its status code in the error text, since the
      code is a non-zero status. */
  lemma RefusedNamesStatus(status: int, statusText: string, data: Option<Value>, pretty: Stringify,
                           stringify: Stringify)
    requires status != 0
    ensures var r := RunWebhook(Refused(status, statusText, data), pretty, stringify);
      r.Reported? && r.error.code == CodeFor(Some(status)) &&
      Text.Contains(r.error.message, " (Status: " + Text.IntToString(status) + ")") &&
      Text.Contains(r.error.message, ResponseDataText(data, pretty))
  {
    var message := "Webhook execution failed with status " + Text.IntToString(status) + ": " + statusText;
    var head := message + "\n\n" + ResponseDataText(data, pretty);
    var st := " (Status: " + Text.IntToString(status) + ")";
    var e := NewApiError(head, Some(status), None, stringify);
    assert RunWebhook(Refused(status, statusText, data), pretty, stringify) == Reported(e);
    assert e.message == FormatErrorMessage(head, Some(status), None, stringify);
    assert DetailsText(None, stringify).None?;
    assert e.message == WithStatus(head, Some(status));
    assert StatusOpen + Text.IntToString(status) + ")" == st;
    assert e.message == head + st;
    ContainsInside(head, st, "");
    assert head + st + "" == e.message;
    ContainsInside(message + "\n\n", ResponseDataText(data, pretty), st);
  }

  /** A string contains whatever is written inside it. */
  lemma {:induction false} ContainsInside(a: string, b: string, c: string)
    ensures Text.Contains(a + b + c, b)
  {
    if a != [] {
      assert (a + b + c)[1..] == a[1..] + b + c;
      ContainsInside(a[1..], b, c);
    } else {
      assert a + b + c == b + c;
    }
  }
}
