# n8n MCP server: the adapter logic, in Dafny

This project models the logic of an MCP (Model Context Protocol) server that exposes
an n8n instance. Clients call it through tools (list, create and update workflows;
list and run executions; manage users, tags, variables and projects). They read it
through resources (summaries of projects, variables, tags and security audits).

The model covers the TypeScript code that sits between those calls and the n8n REST
API:

- **API clients** (`src/api/*-client.ts`). Each builds query parameters and payloads,
  unwraps `response.data.data || []`, and turns transport failures into
  `N8nApiError`s or plain `Error`s. Some failures are downgraded: a licensing 403 on
  project listing and any 403 on variable listing become an empty list.
- **Error mapping** (`src/errors/index.ts`). This covers the status-to-code ladder,
  message formatting, `handleAxiosError` and `getErrorMessage`.
- **Tool handlers** (`src/tools/**`). They check arguments in the source's order,
  call the API, and build `{content, isError}` envelopes through the per-family
  `formatSuccess`, `formatError` and `handleExecution`.
- **Execution formatter** (`src/utils/execution-formatter.ts`). It builds execution
  summaries and details, and the status histogram with rounded percentages.
- **Static resources** (`src/resources/static/*.ts`). These are the project,
  variable, tag and security-audit summaries.

Every network call is a parameter of the model. A client function receives the
outcome of its HTTP request as `Result<…, Transport>`, and a tool receives the
outcome of the client call it makes as `Result<…, Thrown>`. Where the source
promises that nothing is sent (a rejected argument), the model says so. It either
returns the list of calls it would make, or proves that the result does not depend
on the call's outcome.

JSON values are `Json.Value`. JavaScript truthiness is `Truthy`, `HasText` and
`HasNumber`. `undefined` is `None`, and `String(x)` in a template is `Display`.
Object key order matters only where the source builds a histogram by iteration, so
histograms are sequences of `Bucket`s in order of first occurrence.

Where the source loops or updates a value step by step, the model is a `method`
proved against a specification function. Examples are `FilterSettings`,
`RecentIssues`, `Tally`, `SummarizeExecutions`, `FormatExecutionDetails`,
`ApplyFilters`, `CollectChanges`, `GetTagsResource` and `OverallStatus`. Expression
code is modelled as functions.

## Model

| member | source | states |
|---|---|---|
| Errors.CodeFor | src/errors/index.ts:40-50 | Each code holds exactly when its condition holds. 401 and 403 give AuthenticationError. 404 gives NotFoundError. Any other truthy status in 400..499 gives InvalidRequest. Everything else, including no status and status 0, gives InternalError. |
| Errors.FormatErrorMessage | src/errors/index.ts:62-81 | The message comes first. " (Status: n)" follows only for a truthy status. "\nDetails: " and the details text follow only when the details are truthy. Otherwise the message is unchanged. |
| Errors.FormatErrorMessageShape | src/errors/index.ts:62-81 | The original message is always a prefix. The status part is present iff the status is truthy. The text keeps the message's length iff there is neither a status nor details. |
| Errors.NewApiError | src/errors/index.ts:34-56 | The error keeps its status and details. Its message extends the given one. Its code is the one the status ladder assigns. |
| Errors.PlainApiError | src/errors/index.ts:34-56 | With no status and no details, the error is an InternalError carrying the message verbatim. |
| Errors.ResponseMessage | src/errors/index.ts:106-110 | Only a truthy `data.message` is used as the response message. |
| Errors.HandleAxiosError | src/errors/index.ts:104-129 | Three cases. A response keeps its status and data, gets the code for that status, and is led by its message or the default. A request without a response has no status, is internal, and reads "Network error…", plus the cause when there is one. Anything else has no status and no details, and is internal. |
| Errors.ResponseClassification | src/errors/index.ts:40-50 | For HTTP failures, each class of status reaches the code the ladder promises. |
| Errors.GetErrorMessage | src/errors/index.ts:137-150 | An Error yields its message. A thrown string yields itself. |
| Errors.Thrown.ToString | src/errors/index.ts:11-19 | `toString()` starts with the error's name. It is "name: message" when the message is non-empty. |
| ApiCommon.ListData | src/api/tag-client.ts:67 | The list is `response.data.data` when that is truthy, else `[]`. Either way the result is truthy. |
| ApiCommon.ResponseText | src/api/project-client.ts:128-136 | It is present only when the response data holds a string `message`, and then it is that string. |
| ApiCommon.Rethrow | src/api/tag-client.ts:68-71 | A rethrown failure is exactly the `handleAxiosError` of the transport failure with the call's default message. |
| WorkflowClient.ListParams | src/api/workflow-client.ts:52-68 | Each query parameter is present iff its argument is truthy, and then carries it. `tagId` is sent as `tags`. |
| WorkflowClient.ListWorkflows | src/api/workflow-client.ts:70-75 | It succeeds iff the request did, with the unwrapped list. Otherwise it rethrows with "Failed to list workflows". |
| WorkflowClient.CreateWorkflow | src/api/workflow-client.ts:100-128 | Falsy settings are replaced by the defaults, visibly to the caller. The payload is the workflow minus the five read-only keys, and always has truthy settings. It rethrows with "Failed to create workflow". |
| WorkflowClient.FilteredSettings | src/api/workflow-client.ts:144-164 | Only allowed keys survive, with their values unchanged. Every allowed key the settings object defines survives. A missing or non-object input gives `{}`. |
| WorkflowClient.FilterSettingsIdempotent | src/api/workflow-client.ts:144-164 | Filtering already filtered settings changes nothing. |
| WorkflowClient.FilterSettings | src/api/workflow-client.ts:157-163 | The copying loop computes exactly FilteredSettings. |
| WorkflowClient.UpdatePayload | src/api/workflow-client.ts:168-178 | Name, nodes and connections are the new values when given, else the current ones. Settings are always present and filtered. `active` is present iff given. |
| WorkflowClient.UpdateWorkflow | src/api/workflow-client.ts:137-187 | A failed read sends nothing and fails. Otherwise the merged payload is sent. The update's result or its failure, rethrown with "Failed to update workflow id", is returned. |
| WorkflowClient.ReadFailureLosesStatus | src/api/workflow-client.ts:140-185 | A failed read reaches the caller as a status-less InternalError, even when the read was a 404. |
| ProjectClient.ListParams | src/api/project-client.ts:53-69 | Each query parameter is present iff its argument is truthy, and then carries it. |
| ProjectClient.ListProjects | src/api/project-client.ts:71-90 | It fails iff the request failed with something other than a licensing 403. A licensing 403 gives `[]`. Other failures are rethrown with "Failed to get projects". |
| ProjectClient.ForbiddenWithoutLicenseFails | src/api/project-client.ts:76-90 | A 403 whose message does not mention the license is not downgraded. It surfaces as an AuthenticationError. |
| ProjectClient.CreatePayload | src/api/project-client.ts:106-108 | Only the name is sent, and it is sent unchanged. |
| ProjectClient.CreateProject | src/api/project-client.ts:102-142 | The checks run in order: a licensing 403 first, then a 400 with a string message (its validation text), then a rethrow. |
| ProjectClient.UpdateProject | src/api/project-client.ts:151-173 | A licensing 403 gives its fixed message. Any other failure is rethrown with "Failed to update project id". |
| ProjectClient.DeleteParams | src/api/project-client.ts:184-188 | `force` is sent only when it is true. |
| ProjectClient.DeleteProject | src/api/project-client.ts:182-210 | Success gives `{success: true}`. A licensing 403 gives its fixed message. Anything else is rethrown. |
| VariableClient.ListParams | src/api/variable-client.ts:55-79 | Project, type, limit and offset need a truthy value. The two flags are sent whenever they are defined, false included. |
| VariableClient.ListVariables | src/api/variable-client.ts:81-94 | Any 403, whatever its message, gives `[]`. Other failures are rethrown with "Failed to get variables". |
| VariableClient.CreatePayload | src/api/variable-client.ts:109-112 | The payload has exactly the key and the value the parameters define, unchanged. |
| VariableClient.CreateVariable | src/api/variable-client.ts:116-146 | The checks run in order: a 400 with a string message, then 402 (the enterprise text), then 403 (the permission text), then a rethrow. |
| VariableClient.BadRequestWithoutText | src/api/variable-client.ts:122-145 | A 400 without a string message is not a validation error. It is rethrown as InvalidRequest. |
| VariableClient.DeleteVariableById | src/api/variable-client.ts:155-171 | Success gives `{success: true}`. Any 403 gives its fixed text. Anything else is rethrown. |
| TagClient.ListParams | src/api/tag-client.ts:52-64 | Each query parameter is present iff its argument is truthy, and then carries it. |
| TagClient.ListTags | src/api/tag-client.ts:66-71 | It succeeds iff the request did, with the unwrapped list. Otherwise it rethrows with "Failed to get tags". |
| TagClient.SanitizeCreate | src/api/tag-client.ts:100-107 | The name is passed through. The colour is sent iff it is a non-empty string. Nothing else is sent. |
| TagClient.CreateTag | src/api/tag-client.ts:109-126 | A 400 with a string message becomes the validation text. Anything else is rethrown with "Failed to create tag". |
| TagClient.UpdateTag | src/api/tag-client.ts:136-178 | The checks run in order: 405 "not supported", then a 409 "already exists", then a 400 with a string message, then a rethrow. |
| TagClient.OtherConflictFallsThrough | src/api/tag-client.ts:150-176 | A 409 that does not say "already exists" is rethrown as InvalidRequest. |
| TagClient.DeleteTag | src/api/tag-client.ts:186-194 | Success gives `{success: true}`. A failure is rethrown with "Failed to delete tag id". |
| WorkflowTagClient.TagRefs | src/api/workflow-tag-client.ts:57 | The payload has one `{id}` object per tag id, in the same order. |
| WorkflowTagClient.TagRefsRoundTrip | src/api/workflow-tag-client.ts:57 | Reading `id` back from each payload entry gives the tag ids. |
| WorkflowTagClient.ListWorkflowTags | src/api/workflow-tag-client.ts:36-44 | It succeeds iff the request did, with the unwrapped list. Otherwise it rethrows. |
| WorkflowTagClient.UpdateWorkflowTags | src/api/workflow-tag-client.ts:53-77 | Success gives the unwrapped list. A 400 with a string message gives the validation text. Anything else is rethrown. |
| ToolResults.SuccessText | src/tools/tag/base-handler.ts:42 | A non-empty message is used as given. Otherwise the default text is used. The text is never empty. |
| ToolResults.FormatSuccess | src/tools/tag/base-handler.ts:37-51 | It is a success envelope whose text and serialised data read back as the message and the data. |
| ToolResults.FormatError | src/tools/tag/base-handler.ts:59-71 | It is an error envelope whose text reads back, after "Error: ", as the string or the Error's message. |
| ToolResults.HandleExecution | src/tools/tag/base-handler.ts:80-97 | A result passes through unchanged. An N8nApiError is reported by its `toString()`. Any other failure gets the family's "Error executing … tool:" prefix. Nothing is rethrown. |
| ToolResults.FamilyPrefixInjective | src/tools/source-control/base-handler.ts:101 | Different families have different fall-back prefixes. |
| ToolResults.FamilyFallbackTexts | src/tools/tag/base-handler.ts:80-97 | In every family an Error surfaces as "Error executing <family> tool: " plus its message, and a non-Error as that prefix plus "Unknown error occurred". The family names are those of the tag, user, variable, project and source-control base handlers. |
| ToolResults.ApiErrorSurface | src/tools/tag/base-handler.ts:86-89 | In every family, an N8nApiError reads "Error: N8nApiError: " followed by its message. |
| ToolResults.HandleAuditExecution | src/tools/security-audit/base-handler.ts:78-99 | The security-audit handler reports any Error by its own message, with no prefix. A non-Error gets the fixed "unexpected error" text. |
| ToolResults.CredentialSuccess | src/tools/credential/base-handler.ts:37-57 | The message block comes first. A `json` block carrying the data is appended iff the data is truthy. |
| Entities.ParseRole | src/types/user.ts:10-14 | An accepted role string names that role. |
| Entities.RoleNamesRoundTrip | src/types/user.ts:10-14 | Every role parses back from its name. Exactly "owner", "member" and "admin" are accepted. |
| Entities.VariableTypeNamesComplete | src/types/variable.ts:64-73 | Every variable type is listed, once. |
| ExecutionFormatter.StatusIndicator | src/utils/execution-formatter.ts:103-117 | Each glyph is chosen iff the status is the one it stands for. Anything else, undefined included, gets the fallback glyph. |
| ExecutionFormatter.FormatExecutionSummary | src/utils/execution-formatter.ts:16-36 | Identity fields are copied. The status text is the glyph, a space, then the status. `stoppedAt` is "In progress" iff it is missing or empty. |
| ExecutionFormatter.NodeResultOf | src/utils/execution-formatter.ts:51-80 | Only the last run counts. The item count is the length of its first main output. The preview is that output's first three items. A malformed run reports no items, and its status is the last run's status when that is truthy, otherwise "unknown". |
| ExecutionFormatter.OnlyLastRunCounts | src/utils/execution-formatter.ts:55-74 | Whatever ran before, a falsy last run yields "unknown" with no items. |
| ExecutionFormatter.FormatExecutionDetails | src/utils/execution-formatter.ts:44-95 | The details are the summary, the mode and the error, plus one node result per run-data entry in order. With no run data there are none. |
| ExecutionFormatter.Percent | src/utils/execution-formatter.ts:137-139 | It is 0 when there is nothing to count. |
| ExecutionFormatter.PercentBounds | src/utils/execution-formatter.ts:143-147 | A rounded share of a total is at most 100. |
| ExecutionFormatter.StatusRows | src/utils/execution-formatter.ts:143-147 | There is one row per bucket, in bucket order, each with its glyph, count and percentage. |
| ExecutionFormatter.CountSumRows | src/utils/execution-formatter.ts:143-147 | The row counts add up to the bucket total. |
| ExecutionFormatter.RowAt | src/utils/execution-formatter.ts:130-147 | Row i describes the i-th distinct status, counted exactly, with a percentage of at most 100. |
| ExecutionFormatter.SummarizeExecutions | src/utils/execution-formatter.ts:126-152 | Only the first `limit` executions are summarised. There is one row per distinct status, in order of first occurrence, with exact counts. The counts sum to the total. The success rate is the rounded share of "success". `totalAvailable` counts the whole input. With nothing to summarise there are no rows and the rate reads "0%". |
| Seqs.Tally | src/resources/static/tags.ts:40-44 | The counting loop yields one bucket per distinct key, in order of first occurrence. Each count is that key's number of occurrences and is positive. The counts sum to the input length. |
| Seqs.TallyBump | src/resources/static/tags.ts:43 | Counting a key that already has a bucket adds one to that bucket and keeps the histogram exact. |
| Seqs.TallyAdd | src/resources/static/tags.ts:43 | Counting a new key appends a bucket of one and keeps the histogram exact. |
| Seqs.TalliedPositive | src/resources/static/tags.ts:40-44 | Every bucket of an exact histogram has a positive count. |
| ExecutionTools.Matching | src/tools/execution/list.ts:40-51 | Every kept execution matches both filters and comes from the input. |
| ExecutionTools.MatchingComplete | src/tools/execution/list.ts:40-51 | Every input execution that matches both filters is kept. |
| ExecutionTools.Shown | src/tools/execution/list.ts:57-59 | No more executions are shown than matched. A positive limit bounds the number shown. |
| ExecutionTools.ApplyFilters | src/tools/execution/list.ts:37-51 | The two successive filters compute exactly Matching. |
| ExecutionTools.ListExecutions | src/tools/execution/list.ts:30-90 | It shows the formatted first matches. The count equals the number shown. The workflow filter holds for every entry shown. `filtersApplied` holds iff a filter was given. `totalAvailable` counts all executions. The summary is present iff requested. Its total, rows, counts, percentages and success rate are those of the first ten unfiltered executions. The message reflects the count and the filters. |
| ExecutionTools.BasePath | src/tools/execution/run.ts:48-50 | A trailing "/api/v1" or "/api/v1/" is removed. Any other path is unchanged. |
| ExecutionTools.SafeWorkflowName | src/tools/execution/run.ts:77 | The result holds no '/'. |
| ExecutionTools.SafeNameKeepsOrder | src/tools/execution/run.ts:77 | Removing slashes keeps every other character, in order. |
| ExecutionTools.SafeNameUnchanged | src/tools/execution/run.ts:77 | A name without slashes is used as is. |
| ExecutionTools.WebhookPath | src/tools/execution/run.ts:78 | The path is "webhook/" followed by the safe name. |
| ExecutionTools.Headers | src/tools/execution/run.ts:83-86 | The caller's headers are all present and win. JSON is the content type unless the caller sets one. |
| ExecutionTools.WebhookBody | src/tools/execution/run.ts:96 | The body is the given data, or `{}`. |
| ExecutionTools.RunWebhook | src/tools/execution/run.ts:94-133 | An answer is reported with its status, status text and data. A refused request becomes an error naming the status, with a truthy status code or 500. An unreachable one names the cause with 500. A non-axios failure is rethrown. |
| ExecutionTools.RefusedNamesStatus | src/tools/execution/run.ts:111-125 | A refused request's report contains " (Status: N)" and the serialised response data. Its error code is the one for that status. |
| WorkflowTools.Row | src/tools/workflow/list.ts:30-35 | Each row copies the workflow's id, name, active flag and update time. |
| WorkflowTools.ListWorkflowsTool | src/tools/workflow/list.ts:20-42 | A boolean `active` yields the rows of exactly the workflows with that flag, in input order. Anything else keeps all of them. The message counts the rows and names the filter. |
| WorkflowTools.ListWorkflowsComplete | src/tools/workflow/list.ts:25-35 | Every workflow with the requested flag is listed. |
| WorkflowTools.UpdateFields | src/tools/workflow/update.ts:38-42 | Each given field is in the update data with its value. Nothing else is. |
| WorkflowTools.UpdateFieldsEmpty | src/tools/workflow/update.ts:38-47 | The update data is empty iff none of name, nodes, connections and active is given. |
| WorkflowTools.EditChanges | src/tools/workflow/update.ts:67-68 | A rename or toggle is reported only when it is given and differs from the current value, with the old and new values. |
| WorkflowTools.GivenChanges | src/tools/workflow/update.ts:69-71 | Nodes, connections and tags are reported iff they are given. |
| WorkflowTools.BuildUpdateData | src/tools/workflow/update.ts:38-42 | It builds exactly UpdateFields. |
| WorkflowTools.CollectChanges | src/tools/workflow/update.ts:66-71 | It collects exactly Changes, edits first. |
| WorkflowTools.CollectEdits | src/tools/workflow/update.ts:66-68 | The rename and toggle entries are collected exactly as EditChanges. |
| WorkflowTools.CollectGiven | src/tools/workflow/update.ts:69-71 | The nodes, connections and tags entries follow the edits, exactly as GivenChanges. |
| WorkflowTools.ApplyUpdate | src/tools/workflow/update.ts:37-84 | Nothing given: the current workflow and no call. A failed update fails, with no tag call. Otherwise the update and tag calls are made and success reports the change summary, whatever the tag call did. |
| WorkflowTools.UpdateWorkflowTool | src/tools/workflow/update.ts:21-86 | A missing id fails before any call. A failed read, whatever its cause, is reported as a 404 "not found" before any update call. No field and no tags reply "No changes requested" without writing. After the read it makes exactly the write calls: the update when a field is given, then the tags. A tag failure is ignored. Success reports the updated workflow and the change summary. |
| WorkflowTools.WriteCallsCarryFields | src/tools/workflow/update.ts:51-53 | An update call carries exactly the update data, and that data is never empty. |
| WorkflowTools.SameValuesGenericSummary | src/tools/workflow/update.ts:67-75 | Resending the current name and flag still calls the update, but reports the generic summary. |
| WorkflowTools.CreateProblem | src/tools/workflow/create.ts:34-48 | The checks run in order: name, then nodes, connections and tags. There is no problem iff every check passes. |
| WorkflowTools.OrElse | src/tools/workflow/create.ts:54-56 | A truthy value is kept. Otherwise the fallback is used. |
| WorkflowTools.CreatePayload | src/tools/workflow/create.ts:51-57 | The payload has exactly five fields. `active` is true only for `true`. The others default when falsy. |
| WorkflowTools.CreateWorkflowTool | src/tools/workflow/create.ts:30-72 | A problem is thrown as an N8nApiError. A failing create passes on its error. Success reports id, name and active. |
| WorkflowTools.CreateRejectsBeforeCall | src/tools/workflow/create.ts:34-48 | A rejected argument gives the same InternalError whatever the API would have answered. |
| UserHandlers.Rejected | src/tools/user/change-role.ts:26 | A rejection is an error envelope carrying exactly its text. |
| UserHandlers.RoleArg | src/tools/user/change-role.ts:29 | A role string is accepted iff it is one of the three role names. |
| UserHandlers.NewRoleName | src/tools/user/change-role.ts:35-47 | Admin and member map to their "global:" names. Owner is refused. |
| UserHandlers.ChangeRoleRequest | src/tools/user/change-role.ts:25-50 | The checks run in order: id, then role, then owner refusal. On success the payload is `newRoleName`. |
| UserHandlers.RoleChangeData | src/tools/user/change-role.ts:52-59 | Exactly the five user fields are reported, each with the returned user's value. |
| UserHandlers.ChangeRoleTool | src/tools/user/change-role.ts:21-63 | A rejection is reported verbatim. A call failure is reported through the user handler. Success names the role. |
| UserHandlers.ChangeRoleAccepts | src/tools/user/change-role.ts:29-47 | With an id, exactly "admin" and "member" reach the API. |
| UserHandlers.CreateRequest | src/tools/user/create.ts:25-47 | The checks run in order: email, first name, last name, role. A request is accepted iff all pass. The payload has the four fields plus the password when given. |
| UserHandlers.CreatedData | src/tools/user/create.ts:52-59 | Exactly the six user fields are reported, each with the created user's value. These are the role-change fields plus `isPending`. |
| UserHandlers.CreateUserTool | src/tools/user/create.ts:21-63 | A rejection is reported verbatim. A call failure is reported through the user handler. Success names the email. |
| UserHandlers.CreateRejectsBeforeCall | src/tools/user/create.ts:25-39 | A rejected request gives the same result whatever the API would have answered. |
| TagHandlers.TagUpdateFields | src/tools/tag/update.ts:30-32 | Each defined field is present with its value. Nothing else is. |
| TagHandlers.BuildTagUpdate | src/tools/tag/update.ts:30-32 | It builds exactly TagUpdateFields. |
| TagHandlers.TagUpdated | src/tools/tag/update.ts:39-44 | Success names the tag. A failure goes through the tag handler. |
| TagHandlers.TagUpdateTool | src/tools/tag/update.ts:21-46 | A missing id, or no field to update, fails with its text and sends nothing. Otherwise exactly the defined fields are sent. |
| VariableHandlers.ByKey | src/tools/variable/delete.ts:37 | A found variable has the key. None is returned only when no variable has it. |
| VariableHandlers.ByKeyFirst | src/tools/variable/delete.ts:37 | The first variable with the key is the one found. |
| VariableHandlers.VariableDeleteTool | src/tools/variable/delete.ts:21-51 | Neither id nor key makes no call. An id deletes by id only. A key lists first, fails with "not found" without deleting, or deletes the first match. The message names the id or the key. |
| ResourceCommon.ResourceFailure | src/resources/static/tags.ts:65-71 | A failing resource is an McpError InternalError: the prefix, then the message or "Unknown error". |
| SecurityAuditResource.OverallStatus | src/resources/static/security-audit.ts:38-47 | Each status holds iff it is the most severe non-zero level. "secure" holds iff there are no issues at all. |
| SecurityAuditResource.Entry | src/resources/static/security-audit.ts:56-63 | An entry copies the issue and its workflow. The node name defaults to "Unknown". |
| SecurityAuditResource.FlatAppend | src/resources/static/security-audit.ts:53-54 | Flattening distributes over concatenation. |
| SecurityAuditResource.FlatPrefixStep | src/resources/static/security-audit.ts:53-54 | Flattening one more workflow appends exactly its entries. |
| SecurityAuditResource.TakeAtBreak | src/resources/static/security-audit.ts:50-70 | Stopping as soon as five entries are collected yields the first five of the whole flattened list. |
| SecurityAuditResource.FlatFromIssues | src/resources/static/security-audit.ts:53-63 | Every flattened entry comes from some issue of some workflow. |
| SecurityAuditResource.RecentIssues | src/resources/static/security-audit.ts:50-70 | The nested loops with early exit give the first five issues in workflow order. |
| SecurityAuditResource.GetSecurityAuditResource | src/resources/static/security-audit.ts:27-99 | The status follows the full severity ladder (critical, high, medium, low, secure, each stated iff). The copied summary, the first five issues and the audit date are reported. A failure becomes the resource McpError. |
| VariablesResource.ByType | src/resources/static/variables.ts:36-39 | There is one count per variable type, in declaration order. |
| VariablesResource.ByTypeEntry | src/resources/static/variables.ts:36-39 | Every type has exactly one entry, holding its count. |
| VariablesResource.ByTypeTotal | src/resources/static/variables.ts:36-39 | The type counts add up to at most the number of variables. |
| VariablesResource.Entry | src/resources/static/variables.ts:54-60 | The type defaults to "string". `isSystem` holds iff the variable is flagged `true`. |
| VariablesResource.GetVariablesResource | src/resources/static/variables.ts:28-73 | System and user counts partition the list. The first five variables are listed. A failure becomes the resource McpError. |
| ProjectsResource.Summary | src/resources/static/projects.ts:35-48 | Each status count is the number of projects with exactly that status. |
| ProjectsResource.SummaryTotal | src/resources/static/projects.ts:35-48 | The four counts add up to at most the number of projects. |
| ProjectsResource.Entry | src/resources/static/projects.ts:50-55 | The workflow count is the number of workflow ids, or 0. |
| ProjectsResource.GetProjectsResource | src/resources/static/projects.ts:27-68 | It reports the count, the summary and the first five projects. A failure becomes the resource McpError. |
| TagsResource.Insert | src/resources/static/tags.ts:35-37 | Insertion adds exactly the tag. |
| TagsResource.InsertSorted | src/resources/static/tags.ts:35-37 | Inserting into a newest-first list keeps it newest-first. |
| TagsResource.SortNewestFirst | src/resources/static/tags.ts:35-37 | The sorted list is a permutation of the tags. |
| TagsResource.SortNewestFirstSorted | src/resources/static/tags.ts:35-37 | The sorted list is ordered newest first. |
| TagsResource.ColorKey | src/resources/static/tags.ts:42 | A missing or empty colour counts as "no-color". The key is never empty. |
| TagsResource.GetTagsResource | src/resources/static/tags.ts:27-70 | It reports the count and a colour histogram in order of first occurrence whose counts sum to the count. It lists the ten newest tags. A failure becomes the resource McpError. |
| TagsResource.RecentAreNewest | src/resources/static/tags.ts:35-57 | No listed recent tag is older than any tag after it. |

## Left out

- Network, HTTP client configuration, URL resolution (`new URL`), environment configuration and webhook credentials are not modelled. Every request outcome is a parameter.
- Time is not modelled. `duration` in formatExecutionDetails, `lastUpdated` in the project, variable and tag resources, and `new Date()` are omitted. Each tag's `updatedAt` is an integer timestamp, so an unparsable date (NaN in the comparator) is not modelled.
- `JSON.stringify` is a parameter (`Stringify`). It is used for details and data texts, so the exact JSON text and the "[Could not stringify response data]" fallback for a throwing stringify are not modelled.
- Numbers are integers. `Math.round` ties are rounded up, which agrees with `Math.round` for the non-negative shares used here. Floating-point limits are not modelled.
- `Object.keys` ordering of integer-like keys is not modelled. Histograms keep insertion order.
- `console.log`, `console.warn` and `console.error` are left out.
- Zod schema parsing in the run-webhook tool is left out. The arguments reach the model already typed.
- The try/catch inside formatExecutionDetails's node loop is left out. The run data is a JSON value, so no property access can throw.
- A thrown `null` would crash `handleAxiosError` in the source (property access on null). The model's transport failures are always one of the three axios shapes.
- Thin pass-through members are not modelled separately, because they add nothing to the calls they forward. These are the read, list and delete tools that only call one client method and format its result, and client methods with no branching (readTag, readWorkflow, deleteWorkflow, activate and deactivate, and the credential, user, execution, source-control and security-audit clients).
- The execution and workflow tool families' base handlers are not part of this model. Those tools return the reply, or the error they throw, instead of an envelope.
- The "Invalid role specified" branch of user_change_role cannot be reached after the role check, so it is left out.
- Header names are compared case-sensitively.
- The variables resource's exact listVariables arguments (`includeSystem: true`, `includeValues: false`) are not modelled. The list reaches the resource already fetched.
- The `resourceType` and `_links` constants and the resource URIs are left out.
- TagsResource.SortNewestFirst: the model is a stable insertion sort. Engine-specific ordering of equal timestamps in `Array.prototype.sort` is not captured.
- ExecutionFormatter.Percent: stated for non-negative integer counts only.
