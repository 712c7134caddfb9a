/** The records the adapter reads from the n8n API, reduced to the fields its logic
    looks at, and the three string enumerations it validates against. Fields that
    may be missing in a response are `Option`s. */
module Entities {
  import opened Wrappers
  import opened Json

  /** A workflow (src/types/index.ts:85-98): the fields the tools inspect, and the
      rest of the record, kept as is. */
  datatype Workflow = Workflow(id: string, name: string, active: bool, updatedAt: string,
                               rest: map<string, Value>)

  /** The error details of an execution. */
  datatype ExecutionError = ExecutionError(message: Option<string>, stack: Option<string>)

  /** An execution (src/types/index.ts:114-131). `runData` holds the entries of
      `data.resultData.runData` in their enumeration order, or `None` when that
      object is missing; `error` is `data.resultData.error`. */
  datatype Execution = Execution(
    id: string, workflowId: string, finished: bool, mode: string,
    startedAt: string, stoppedAt: Option<string>, status: Option<string>,
    runData: Option<seq<(string, Value)>>, error: Option<ExecutionError>)

  /** The roles of src/types/user.ts:10-14. */
  datatype UserRole = Owner | Member | Admin
  {
    function Name(): string {
      match this
      case Owner => "owner"
      case Member => "member"
      case Admin => "admin"
    }
  }

  /** `Object.values(UserRole).includes(s)`, returning the matching role. */
  function ParseRole(s: string): (r: Option<UserRole>)
    ensures r.Some? ==> r.value.Name() == s
  {
    if s == "owner" then Some(Owner)
    else if s == "member" then Some(Member)
    else if s == "admin" then Some(Admin)
    else None
  }

  /** Exactly the three role names are accepted, and each names its own role. */
  lemma {:induction false} RoleNamesRoundTrip(r: UserRole, s: string)
    ensures ParseRole(r.Name()) == Some(r)
    ensures ParseRole(s).None? <==> s !in {"owner", "member", "admin"}
  {
    match r
    case Owner =>
    case Member =>
    case Admin =>
  }

  datatype User = User(id: string, email: string, firstName: string, lastName: string,
                       role: string, isPending: bool)

  /** The variable types of src/types/variable.ts:64-73. */
  datatype VariableType =
    | StringVar | NumberVar | BooleanVar | CredentialVar
    | SecretVar | ExpressionVar | ConfigurationVar | CustomVar
  {
    function Name(): string {
      match this
      case StringVar => "string"
      case NumberVar => "number"
      case BooleanVar => "boolean"
      case CredentialVar => "credential"
      case SecretVar => "secret"
      case ExpressionVar => "expression"
      case ConfigurationVar => "configuration"
      case CustomVar => "custom"
    }
  }

  /** `Object.values(VariableType)`: the type names in declaration order. */
  const VariableTypeNames: seq<string> :=
    ["string", "number", "boolean", "credential", "secret", "expression", "configuration", "custom"]

  /** Every variable type is listed once, and the list names nothing else. */
  lemma VariableTypeNamesComplete(t: VariableType)
    ensures t.Name() in VariableTypeNames
    ensures forall i, j :: 0 <= i < j < |VariableTypeNames| ==> VariableTypeNames[i] != VariableTypeNames[j]
  {
  }

  /** A variable (src/types/variable.ts:14-59); `varType` is the `type` field. */
  datatype Variable = Variable(id: string, key: string, value: string, projectId: Option<string>,
                               isSystem: Option<bool>, varType: Option<string>)

  /** The project statuses of src/types/project.ts:75-80. */
  datatype ProjectStatus = Active | Archived | Draft | Completed
  {
    function Name(): string {
      match this
      case Active => "active"
      case Archived => "archived"
      case Draft => "draft"
      case Completed => "completed"
    }
  }

  /** A project (src/types/project.ts:15-70). */
  datatype Project = Project(id: string, name: string, status: Option<string>,
                             workflowIds: Option<seq<string>>)

  /** A tag (src/types/tag.ts:16-51); `updatedAt` is the timestamp the date string
      denotes, as an integer. */
  datatype Tag = Tag(id: string, name: string, color: Option<string>, updatedAt: int)

  /** The audit result shapes of src/types/security-audit.ts:10-120. */
  datatype SecurityIssue = SecurityIssue(id: string, nodeName: Option<string>, severity: string, title: string)
  datatype WorkflowAuditResult = WorkflowAuditResult(workflowId: string, workflowName: string,
                                                     issues: seq<SecurityIssue>)
  datatype AuditSummary = AuditSummary(totalWorkflows: int, issuesFound: int, criticalIssues: int,
                                       highIssues: int, mediumIssues: int, lowIssues: int)
  datatype SecurityAuditResult = SecurityAuditResult(auditDate: string, summary: AuditSummary,
                                                     workflowResults: seq<WorkflowAuditResult>)
}
