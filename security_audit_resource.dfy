/** src/resources/static/security-audit.ts: the overall status and the first five
    issues of a security audit. */
module SecurityAuditResource {
  import opened Wrappers
  import opened Json
  import opened Errors
  import opened Entities
  import opened Seqs
  import opened ResourceCommon

  /** The if-ladder that sets `status`: the most severe level with issues, else "secure". */
  method OverallStatus(summary: AuditSummary) returns (status: string)
    ensures status == "critical" <==> summary.criticalIssues > 0
    ensures status == "high" <==> summary.criticalIssues <= 0 && summary.highIssues > 0
    ensures status == "medium" <==>
      summary.criticalIssues <= 0 && summary.highIssues <= 0 && summary.mediumIssues > 0
    ensures status == "low" <==>
      summary.criticalIssues <= 0 && summary.highIssues <= 0 && summary.mediumIssues <= 0 && summary.lowIssues > 0
    ensures status == "secure" <==>
      summary.criticalIssues <= 0 && summary.highIssues <= 0 && summary.mediumIssues <= 0 && summary.lowIssues <= 0
  {
    status := "secure";
    if summary.criticalIssues > 0 {
      status := "critical";
    } else if summary.highIssues > 0 {
      status := "high";
    } else if summary.mediumIssues > 0 {
      status := "medium";
    } else if summary.lowIssues > 0 {
      status := "low";
    }
  }

  /** One entry of `recentIssues`. */
  datatype RecentIssue = RecentIssue(id: string, workflowId: string, workflowName: string, title: string,
                                     severity: string, nodeName: string)

  function Entry(w: WorkflowAuditResult, issue: SecurityIssue): (e: RecentIssue)
    ensures e.id == issue.id && e.title == issue.title && e.severity == issue.severity
    ensures e.workflowId == w.workflowId && e.workflowName == w.workflowName
    ensures e.nodeName == if HasText(issue.nodeName) then issue.nodeName.value else "Unknown"
  {
    RecentIssue(issue.id, w.workflowId, w.workflowName, issue.title, issue.severity,
                if HasText(issue.nodeName) then issue.nodeName.value else "Unknown")
  }

  /** The entries for one workflow's issues, in order. */
  function Entries(w: WorkflowAuditResult): (es: seq<RecentIssue>)
    ensures |es| == |w.issues|
    ensures forall j :: 0 <= j < |w.issues| ==> es[j] == Entry(w, w.issues[j])
  {
    seq(|w.issues|, j requires 0 <= j < |w.issues| => Entry(w, w.issues[j]))
  }

  /** Every issue of every workflow, workflow by workflow. */
  function Flat(results: seq<WorkflowAuditResult>): seq<RecentIssue> {
    if results == [] then [] else Flat(results[..|results| - 1]) + Entries(results[|results| - 1])
  }

  lemma {:induction false} FlatAppend(a: seq<WorkflowAuditResult>, b: seq<WorkflowAuditResult>)
    ensures Flat(a + b) == Flat(a) + Flat(b)
    decreases |b|
  {
    if b == [] {
      assert a + b == a;
    } else {
      var init, last := b[..|b| - 1], b[|b| - 1];
      var ab := a + b;
      assert ab[..|ab| - 1] == a + init;
      assert ab[|ab| - 1] == last;
      FlatAppend(a, init);
      var x, y, z := Flat(a), Flat(init), Entries(last);
      assert Flat(ab) == (x + y) + z;
      Associate(x, y, z);
    }
  }

  /** Flattening one more workflow appends its entries. */
  lemma {:induction false} FlatPrefixStep(results: seq<WorkflowAuditResult>, i: nat)
    requires i < |results|
    ensures Flat(results[..i + 1]) == Flat(results[..i]) + Entries(results[i])
  {
    assert results[..i + 1][..i] == results[..i];
  }

  /** Once five entries have been taken from workflow i, the rest of the input no longer
      matters to the first five. */
  lemma {:induction false} TakeAtBreak(results: seq<WorkflowAuditResult>, i: nat, j: nat)
    requires i < |results| && j <= |results[i].issues|
    requires |Flat(results[..i])| + j >= 5
    ensures Take(Flat(results), 5) == Take(Flat(results[..i]) + Entries(results[i])[..j], 5)
  {
    var before, es := Flat(results[..i]), Entries(results[i]);
    var rest := Flat(results[i + 1..]);
    FlatPrefixStep(results, i);
    assert results == results[..i + 1] + results[i + 1..];
    FlatAppend(results[..i + 1], results[i + 1..]);
    assert Flat(results) == (before + es) + rest;
    assert es == es[..j] + es[j..];
    Regroup(before, es[..j], es[j..], rest);
    TakeStable(before + es[..j], es[j..] + rest, 5);
  }

  /** Each flattened entry comes from an issue of one of the workflows, and carries
      that workflow's id and name. */
  lemma {:induction false} FlatFromIssues(results: seq<WorkflowAuditResult>, k: nat)
    requires k < |Flat(results)|
    ensures exists i, j :: 0 <= i < |results| && 0 <= j < |results[i].issues| &&
                           Flat(results)[k] == Entry(results[i], results[i].issues[j])
  {
    var init := results[..|results| - 1];
    if k < |Flat(init)| {
      FlatFromIssues(init, k);
      var i, j :| 0 <= i < |init| && 0 <= j < |init[i].issues| && Flat(init)[k] == Entry(init[i], init[i].issues[j]);
      assert results[i] == init[i];
    } else {
      var j := k - |Flat(init)|;
      assert Flat(results)[k] == Entries(results[|results| - 1])[j];
    }
  }

  /** The nested loop with its two `break`s: issues are collected workflow by workflow
      until five have been taken. */
  method RecentIssues(results: seq<WorkflowAuditResult>) returns (recent: seq<RecentIssue>)
    ensures recent == Take(Flat(results), 5)
  {
    recent := [];
    var count := 0;
    var i := 0;
    while i < |results|
      invariant 0 <= i <= |results|
      invariant count == |recent| <= 5
      invariant recent == Take(Flat(results[..i]), 5)
      invariant count < 5
    {
      var w := results[i];
      ghost var before := Flat(results[..i]);
      assert |before| < 5;
      var j := 0;
      while j < |w.issues|
        invariant 0 <= j <= |w.issues|
        invariant count == |recent|
        invariant recent == before + Entries(w)[..j] && count <= 5
      {
        if count < 5 {
          recent := recent + [Entry(w, w.issues[j])];
          count := count + 1;
          assert Entries(w)[..j + 1] == Entries(w)[..j] + [Entries(w)[j]];
        } else {
          break;
        }
        j := j + 1;
      }
      if count >= 5 {
        TakeAtBreak(results, i, j);
        return;
      }
      FlatPrefixStep(results, i);
      assert Entries(w)[..j] == Entries(w);
      i := i + 1;
    }
    assert results[..i] == results;
  }

  datatype ResourceSummary = ResourceSummary(totalWorkflows: int, totalIssues: int, criticalIssues: int,
                                             highIssues: int, mediumIssues: int, lowIssues: int)

  datatype AuditResource = AuditResource(status: string, summary: ResourceSummary,
                                         recentIssues: seq<RecentIssue>, lastUpdated: string)

  const FailurePrefix := "Failed to generate security audit: "

  /** getSecurityAuditResource; `audit` is the outcome of generateAudit. */
  method GetSecurityAuditResource(audit: Result<SecurityAuditResult, Thrown>)
    returns (r: Result<AuditResource, Thrown>)
    ensures audit.Failure? ==> r == Failure(ResourceFailure(FailurePrefix, audit.error))
    ensures audit.Success? ==> r.Success?
    ensures audit.Success? ==>
      var s := audit.value.summary;
      r.value.summary == ResourceSummary(s.totalWorkflows, s.issuesFound, s.criticalIssues, s.highIssues,
                                         s.mediumIssues, s.lowIssues) &&
      r.value.recentIssues == Take(Flat(audit.value.workflowResults), 5) &&
      r.value.lastUpdated == audit.value.auditDate &&
      (r.value.status == "secure" <==>
        s.criticalIssues <= 0 && s.highIssues <= 0 && s.mediumIssues <= 0 && s.lowIssues <= 0) &&
      (r.value.status == "critical" <==> s.criticalIssues > 0) &&
      (r.value.status == "high" <==> s.criticalIssues <= 0 && s.highIssues > 0) &&
      (r.value.status == "medium" <==> s.criticalIssues <= 0 && s.highIssues <= 0 && s.mediumIssues > 0) &&
      (r.value.status == "low" <==>
        s.criticalIssues <= 0 && s.highIssues <= 0 && s.mediumIssues <= 0 && s.lowIssues > 0)
  {
    if audit.Failure? {
      r := Failure(ResourceFailure(FailurePrefix, audit.error));
      return;
    }
    var result := audit.value;
    var s := result.summary;
    var status := OverallStatus(s);
    var recent := RecentIssues(result.workflowResults);
    r := Success(AuditResource(status,
                               ResourceSummary(s.totalWorkflows, s.issuesFound, s.criticalIssues, s.highIssues,
                                               s.mediumIssues, s.lowIssues),
                               recent, result.auditDate));
  }
}
