/** Display helpers for executions (src/utils/execution-formatter.ts): the status
    glyph, the per-execution summary, node results taken from run data, and the
    status histogram of a list of executions. */
module ExecutionFormatter {
  import opened Wrappers
  import opened Json
  import opened Seqs
  import opened Entities
  import Text

  const SuccessGlyph := "\U{2705}"
  const ErrorGlyph := "\U{274C}"
  const WaitingGlyph := "\U{23F3}"
  /** Shared by running, unknown and every other status. */
  const OtherGlyph := "\U{23F1}\U{FE0F}"

  /** getStatusIndicator: one glyph each for success, error and waiting, one shared
      glyph for anything else (including a missing status). */
  function StatusIndicator(status: Option<string>): (g: string)
    ensures g == SuccessGlyph <==> status == Some("success")
    ensures g == ErrorGlyph <==> status == Some("error")
    ensures g == WaitingGlyph <==> status == Some("waiting")
    ensures g == OtherGlyph <==> status !in {Some("success"), Some("error"), Some("waiting")}
  {
    if status == Some("success") then SuccessGlyph
    else if status == Some("error") then ErrorGlyph
    else if status == Some("waiting") then WaitingGlyph
    else OtherGlyph
  }

  /** `${execution.status}`: a missing status reads "undefined". */
  function StatusText(status: Option<string>): string {
    if status.Some? then status.value else "undefined"
  }

  /** The clock-independent part of formatExecutionSummary. */
  datatype ExecutionSummary = ExecutionSummary(id: string, workflowId: string, status: string,
                                               startedAt: string, stoppedAt: string, finished: bool)

  const InProgress := "In progress"

  /** formatExecutionSummary without the duration: identifiers and flags copied, the
      status behind its glyph, and "In progress" for an execution that has not stopped. */
  function FormatExecutionSummary(e: Execution): (r: ExecutionSummary)
    ensures r.id == e.id && r.workflowId == e.workflowId && r.startedAt == e.startedAt && r.finished == e.finished
    ensures StatusIndicator(e.status) + " " <= r.status
    ensures Text.EndsWith(r.status, " " + StatusText(e.status))
    ensures r.status == StatusIndicator(e.status) + " " + StatusText(e.status)
    ensures HasText(e.stoppedAt) ==> r.stoppedAt == e.stoppedAt.value
    ensures !HasText(e.stoppedAt) ==> r.stoppedAt == InProgress
  {
    var status := StatusIndicator(e.status) + " " + StatusText(e.status);
    assert status[|status| - |" " + StatusText(e.status)|..] == " " + StatusText(e.status);
    ExecutionSummary(e.id, e.workflowId, status, e.startedAt,
                     if HasText(e.stoppedAt) then e.stoppedAt.value else InProgress, e.finished)
  }

  // ---- node results ----

  /** What is reported for one node: the status of its last run, the number of output
      items and at most three of them. */
  datatype NodeResult = NodeResult(status: Option<Value>, items: nat, dataPreview: seq<Value>)

  /** The last entry of a node's run history, when it is a non-empty array. */
  function LastRun(runs: Value): Option<Value> {
    if runs.JArr? && |runs.items| > 0 then Some(runs.items[|runs.items| - 1]) else None
  }

  /** `lastOutput.data.main` when the last run is truthy, has truthy data, and that
      data's `main` is an array. */
  function MainOutputs(runs: Value): Option<seq<Value>> {
    var last := LastRun(runs);
    if last.Some? && Truthy(last.value) && TruthyOpt(Get(last.value, "data")) then
      var main := GetOpt(Get(last.value, "data"), "main");
      if main.Some? && main.value.JArr? then Some(main.value.items) else None
    else None
  }

  /** The output items of the first output of a well-formed last run, if that is an array. */
  function FirstOutputItems(runs: Value): Option<seq<Value>> {
    var main := MainOutputs(runs);
    if main.Some? && |main.value| > 0 && main.value[0].JArr? then Some(main.value[0].items) else None
  }

  const PreviewSize := 3

  /** The node result of formatExecutionDetails for one node's run history. */
  function NodeResultOf(runs: Value): (r: NodeResult)
    // only the last run counts: the item count is the length of its first output
    ensures FirstOutputItems(runs).Some? ==> r.items == |FirstOutputItems(runs).value|
    ensures FirstOutputItems(runs).None? ==> r.items == 0
    // the preview is a prefix of those items, at most three long
    ensures |r.dataPreview| <= PreviewSize && |r.dataPreview| <= r.items
    ensures FirstOutputItems(runs).Some? ==> r.dataPreview == Take(FirstOutputItems(runs).value, PreviewSize)
    // a well-formed run reports its own status; any other its last run's status when
    // that is truthy, and "unknown" otherwise
    ensures MainOutputs(runs).Some? ==> r.status == Get(LastRun(runs).value, "status")
    ensures MainOutputs(runs).None? ==>
      var st := if LastRun(runs).Some? then Get(LastRun(runs).value, "status") else None;
      r.status == Some(if TruthyOpt(st) then st.value else JStr("unknown"))
    ensures MainOutputs(runs).None? ==> r.status.Some? && Truthy(r.status.value)
  {
    var last := LastRun(runs);
    var main := MainOutputs(runs);
    if main.Some? then
      var output := if |main.value| > 0 then main.value[0] else JArr([]);
      NodeResult(Get(last.value, "status"),
                 if output.JArr? then |output.items| else 0,
                 if output.JArr? then Take(output.items, PreviewSize) else [])
    else
      var status := if last.Some? then Get(last.value, "status") else None;
      NodeResult(Some(if TruthyOpt(status) then status.value else JStr("unknown")), 0, [])
  }

  /** A run history whose last entry is not well formed reports nothing about its items,
      whatever came before it. */
  lemma OnlyLastRunCounts(earlier: seq<Value>, last: Value)
    requires !Truthy(last)
    ensures NodeResultOf(JArr(earlier + [last])) == NodeResult(Some(JStr("unknown")), 0, [])
  {
    assert LastRun(JArr(earlier + [last])) == Some(last);
  }

  /** The clock-independent part of formatExecutionDetails. */
  datatype ExecutionDetails = ExecutionDetails(summary: ExecutionSummary, mode: string,
                                               nodeResults: seq<(string, NodeResult)>,
                                               error: Option<ExecutionError>)

  /** formatExecutionDetails: the summary, the mode, one node result per run-data entry
      in enumeration order, and the error details when there are any. */
  method FormatExecutionDetails(e: Execution) returns (d: ExecutionDetails)
    ensures d.summary == FormatExecutionSummary(e) && d.mode == e.mode && d.error == e.error
    ensures e.runData.None? ==> d.nodeResults == []
    ensures e.runData.Some? ==> |d.nodeResults| == |e.runData.value|
    ensures e.runData.Some? ==> forall i :: 0 <= i < |d.nodeResults| ==>
      d.nodeResults[i] == (e.runData.value[i].0, NodeResultOf(e.runData.value[i].1))
  {
    var nodeResults: seq<(string, NodeResult)> := [];
    if e.runData.Some? {
      var entries := e.runData.value;
      var n := 0;
      while n < |entries|
        invariant n <= |entries| && |nodeResults| == n
        invariant forall i :: 0 <= i < n ==> nodeResults[i] == (entries[i].0, NodeResultOf(entries[i].1))
      {
        nodeResults := nodeResults + [(entries[n].0, NodeResultOf(entries[n].1))];
        n := n + 1;
      }
    }
    d := ExecutionDetails(FormatExecutionSummary(e), e.mode, nodeResults, e.error);
  }

  // ---- summarizeExecutions ----

  /** `Math.round(100 * count / total)`, or 0 when there is nothing to count. */
  function Percent(count: nat, total: nat): (p: nat)
    ensures total == 0 ==> p == 0
  {
    if total == 0 then 0 else (200 * count + total) / (2 * total)
  }

  /** A share of a total is a percentage between 0 and 100. */
  lemma {:induction false} PercentBounds(count: nat, total: nat)
    requires count <= total
    ensures Percent(count, total) <= 100
  {
    if total > 0 {
      assert 200 * count + total < 202 * total;
      DivBelow(200 * count + total, 2 * total, 101);
    }
  }

  lemma DivBelow(a: nat, b: nat, q: nat)
    requires b > 0 && a < b * q
    ensures a / b < q
  {
  }

  /** The histogram key of an execution: its status, or "unknown" when it has none. */
  function StatusKey(e: Execution): string {
    if HasText(e.status) then e.status.value else "unknown"
  }

  function StatusKeys(es: seq<Execution>): (ks: seq<string>)
    ensures |ks| == |es| && forall i :: 0 <= i < |es| ==> ks[i] == StatusKey(es[i])
  {
    seq(|es|, i requires 0 <= i < |es| => StatusKey(es[i]))
  }

  datatype StatusCount = StatusCount(status: string, count: nat, percentage: nat)

  /** One row of `byStatus` per bucket, in bucket order. */
  function StatusRows(b: seq<Bucket>, total: nat): (rows: seq<StatusCount>)
    ensures |rows| == |b|
    ensures forall i :: 0 <= i < |b| ==>
      rows[i] == StatusCount(StatusIndicator(Some(b[i].key)) + " " + b[i].key, b[i].count, Percent(b[i].count, total))
  {
    if b == [] then []
    else
      var last := b[|b| - 1];
      StatusRows(b[..|b| - 1], total)
        + [StatusCount(StatusIndicator(Some(last.key)) + " " + last.key, last.count, Percent(last.count, total))]
  }

  function CountSum(rows: seq<StatusCount>): nat {
    if rows == [] then 0 else CountSum(rows[..|rows| - 1]) + rows[|rows| - 1].count
  }

  /** The rows carry the bucket counts unchanged, so they sum to the same total. */
  lemma {:induction false} CountSumRows(b: seq<Bucket>, total: nat)
    ensures CountSum(StatusRows(b, total)) == Total(b)
  {
    if b != [] {
      CountSumRows(b[..|b| - 1], total);
      assert StatusRows(b, total)[..|b| - 1] == StatusRows(b[..|b| - 1], total);
    }
  }

  /** Row i of the histogram of `keys` describes the i-th distinct key, in order of
      first occurrence, with its number of occurrences and a percentage of at most 100. */
  lemma RowAt(keys: seq<string>, buckets: seq<Bucket>, i: nat)
    requires Keys(buckets) == Distinct(keys)
    requires i < |buckets|
    requires buckets[i].count == Occurrences(keys, buckets[i].key) && buckets[i].count > 0
    ensures var key := Distinct(keys)[i];
      var row := StatusRows(buckets, |keys|)[i];
      row.status == StatusIndicator(Some(key)) + " " + key &&
      row.count == Occurrences(keys, key) && 0 < row.count &&
      row.percentage == Percent(row.count, |keys|) && row.percentage <= 100
  {
    assert Keys(buckets)[i] == buckets[i].key;
    OccurrencesBound(keys, buckets[i].key);
    PercentBounds(buckets[i].count, |keys|);
  }

  datatype ExecutionsSummary = ExecutionsSummary(total: nat, byStatus: seq<StatusCount>, successRate: string,
                                                 displayed: nat, totalAvailable: nat)

  /** summarizeExecutions: a status histogram over the first `limit` executions
      (`executions.slice(0, limit)`), in order of first occurrence, with rounded
      percentages and the success rate; `totalAvailable` counts the whole input. */
  method SummarizeExecutions(executions: seq<Execution>, limit: int) returns (s: ExecutionsSummary)
    ensures s.total == s.displayed == SliceEnd(|executions|, limit)
    ensures limit >= 0 ==> s.total <= limit
    ensures s.totalAvailable == |executions|
    ensures |s.byStatus| == |Distinct(StatusKeys(SliceTo(executions, limit)))|
    ensures forall i :: 0 <= i < |s.byStatus| ==>
      var key := Distinct(StatusKeys(SliceTo(executions, limit)))[i];
      s.byStatus[i].status == StatusIndicator(Some(key)) + " " + key &&
      s.byStatus[i].count == Occurrences(StatusKeys(SliceTo(executions, limit)), key) && 0 < s.byStatus[i].count &&
      s.byStatus[i].percentage == Percent(s.byStatus[i].count, s.total) && s.byStatus[i].percentage <= 100
    ensures CountSum(s.byStatus) == s.total
    ensures s.successRate ==
      Text.NatToString(Percent(Occurrences(StatusKeys(SliceTo(executions, limit)), "success"), s.total)) + "%"
    // with nothing to look at there are no rows and the rate reads "0%"
    ensures s.total == 0 ==> s.byStatus == [] && s.successRate == "0%"
  {
    var limited := SliceTo(executions, limit);
    var keys := StatusKeys(limited);
    var buckets := Tally(keys);
    var total := |limited|;
    var j := IndexOfKey(buckets, "success");
    var successCount := if j < |buckets| then buckets[j].count else 0;
    if j == |buckets| {
      DistinctMembers(keys);
      OccursAbsent(keys, "success");
    }
    forall i | 0 <= i < |buckets| {
      RowAt(keys, buckets, i);
    }
    var rows := StatusRows(buckets, total);
    CountSumRows(buckets, total);
    s := ExecutionsSummary(total, rows, Text.NatToString(Percent(successCount, total)) + "%", total, |executions|);
  }
}
