/** The argument checks and request shaping of src/tools/user/change-role.ts and
    src/tools/user/create.ts. Both report a bad argument through formatError and let
    an API failure reach the user family's handleExecution. */
module UserHandlers {
  import opened Wrappers
  import opened Json
  import opened Errors
  import opened Entities
  import opened ToolResults
  import opened ApiCommon

  /** formatError(new Error(text)). */
  function Rejected(text: string): (r: ToolResult)
    ensures ReportedError(r) == Some(text)
  {
    FormatError(Err(PlainError(text)))
  }

  const ValidRoleText := "Valid role is required (owner, admin, or member)"

  /** The role an argument names, when it names one (`!role || !includes(role)` fails). */
  function RoleArg(role: Option<string>): (r: Option<UserRole>)
    ensures r.Some? ==> role.Some? && r.value.Name() == role.value
    ensures role.Some? && role.value in {"owner", "member", "admin"} ==> r.Some?
  {
    if HasText(role) then ParseRole(role.value) else None
  }

  // ---- user_change_role ----

  /** The role name the API expects; the owner role cannot be assigned. */
  function NewRoleName(r: UserRole): (n: Option<string>)
    ensures r == Admin ==> n == Some("global:admin")
    ensures r == Member ==> n == Some("global:member")
    ensures n.None? <==> r == Owner
    ensures n.Some? ==> n.value == "global:" + r.Name()
  {
    assert "global:" + "admin" == "global:admin" && "global:" + "member" == "global:member";
    match r
    case Admin => Some("global:admin")
    case Member => Some("global:member")
    case Owner => None
  }

  /** The checks of UserChangeRoleHandler.execute: the error text, or the user id and
      the payload `{newRoleName}` to send. */
  function ChangeRoleRequest(id: Option<string>, role: Option<string>): (q: Result<(string, Body), string>)
    ensures !HasText(id) ==> q == Failure("User ID is required")
    ensures HasText(id) && RoleArg(role).None? ==> q == Failure(ValidRoleText)
    ensures HasText(id) && RoleArg(role) == Some(Owner) ==> q == Failure("Owner role cannot be changed via API")
    ensures q.Success? ==>
      q.value.0 == id.value && q.value.1.Keys == {"newRoleName"} && q.value.1["newRoleName"] == JStr("global:" + role.value)
  {
    if !HasText(id) then Failure("User ID is required")
    else if RoleArg(role).None? then Failure(ValidRoleText)
    else if NewRoleName(RoleArg(role).value).None? then Failure("Owner role cannot be changed via API")
    else Success((id.value, map["newRoleName" := JStr(NewRoleName(RoleArg(role).value).value)]))
  }

  /** What user_change_role reports about the changed user. */
  function RoleChangeData(u: User): (v: Value)
    ensures v.JObj? && v.fields.Keys == {"id", "email", "firstName", "lastName", "role"}
    ensures v.fields["id"] == JStr(u.id) && v.fields["email"] == JStr(u.email) &&
            v.fields["firstName"] == JStr(u.firstName) && v.fields["lastName"] == JStr(u.lastName) &&
            v.fields["role"] == JStr(u.role)
  {
    JObj(map["id" := JStr(u.id), "email" := JStr(u.email), "firstName" := JStr(u.firstName),
             "lastName" := JStr(u.lastName), "role" := JStr(u.role)])
  }

  /** UserChangeRoleHandler.execute; `call` is the outcome of changeUserRole. */
  function ChangeRoleTool(id: Option<string>, role: Option<string>, call: Result<User, Thrown>): (r: ToolResult)
    ensures ChangeRoleRequest(id, role).Failure? ==> ReportedError(r) == Some(ChangeRoleRequest(id, role).error)
    ensures ChangeRoleRequest(id, role).Success? && call.Failure? ==>
      ReportedError(r) == Some(FamilyFailureText(UserTools, call.error))
    ensures ChangeRoleRequest(id, role).Success? && call.Success? ==>
      ReportedSuccess(r) == Some(("User role changed to " + role.value + " successfully", RoleChangeData(call.value)))
  {
    HandleExecution(UserTools,
      match ChangeRoleRequest(id, role)
      case Failure(text) => Success(Rejected(text))
      case Success(_) =>
        match call
        case Failure(t) => Failure(t)
        case Success(u) => Success(FormatSuccess(RoleChangeData(u), Some("User role changed to " + role.value + " successfully"))))
  }

  /** Exactly admin and member can be assigned. */
  lemma ChangeRoleAccepts(id: string, role: string)
    requires id != ""
    ensures ChangeRoleRequest(Some(id), Some(role)).Success? <==> role == "admin" || role == "member"
  {
    if role in {"owner", "member", "admin"} {
      assert RoleArg(Some(role)).Some?;
    }
  }

  // ---- user_create ----

  datatype CreateArgs = CreateArgs(email: Option<string>, firstName: Option<string>, lastName: Option<string>,
                                   role: Option<string>, password: Option<string>)

  /** The checks of UserCreateHandler.execute, in their order, and the payload. */
  function CreateRequest(args: CreateArgs): (q: Result<Body, string>)
    ensures !HasText(args.email) ==> q == Failure("Email is required")
    ensures HasText(args.email) && !HasText(args.firstName) ==> q == Failure("First name is required")
    ensures HasText(args.email) && HasText(args.firstName) && !HasText(args.lastName) ==>
      q == Failure("Last name is required")
    ensures HasText(args.email) && HasText(args.firstName) && HasText(args.lastName) && RoleArg(args.role).None? ==>
      q == Failure(ValidRoleText)
    ensures q.Success? <==>
      HasText(args.email) && HasText(args.firstName) && HasText(args.lastName) && RoleArg(args.role).Some?
    ensures q.Success? ==>
      q.value.Keys == {"email", "firstName", "lastName", "role"} + (if args.password.Some? then {"password"} else {}) &&
      q.value["email"] == JStr(args.email.value) && q.value["firstName"] == JStr(args.firstName.value) &&
      q.value["lastName"] == JStr(args.lastName.value) && q.value["role"] == JStr(args.role.value) &&
      (args.password.Some? ==> q.value["password"] == JStr(args.password.value))
  {
    if !HasText(args.email) then Failure("Email is required")
    else if !HasText(args.firstName) then Failure("First name is required")
    else if !HasText(args.lastName) then Failure("Last name is required")
    else if RoleArg(args.role).None? then Failure(ValidRoleText)
    else
      var fields := map["email" := JStr(args.email.value), "firstName" := JStr(args.firstName.value),
                        "lastName" := JStr(args.lastName.value), "role" := JStr(args.role.value)];
      // an undefined password is dropped when the payload is serialised
      Success(if args.password.Some? then fields["password" := JStr(args.password.value)] else fields)
  }

  /** What user_create reports about the created user. */
  function CreatedData(u: User): (v: Value)
    ensures v.JObj? && v.fields.Keys == {"id", "email", "firstName", "lastName", "role", "isPending"}
    ensures v.fields["id"] == JStr(u.id) && v.fields["email"] == JStr(u.email) &&
            v.fields["firstName"] == JStr(u.firstName) && v.fields["lastName"] == JStr(u.lastName) &&
            v.fields["role"] == JStr(u.role) && v.fields["isPending"] == JBool(u.isPending)
    // the created user is reported as a role change would report it, plus `isPending`
    ensures v.fields == RoleChangeData(u).fields["isPending" := JBool(u.isPending)]
  {
    JObj(map["id" := JStr(u.id), "email" := JStr(u.email), "firstName" := JStr(u.firstName),
             "lastName" := JStr(u.lastName), "role" := JStr(u.role), "isPending" := JBool(u.isPending)])
  }

  /** UserCreateHandler.execute; `call` is the outcome of createUser. */
  function CreateUserTool(args: CreateArgs, call: Result<User, Thrown>): (r: ToolResult)
    ensures CreateRequest(args).Failure? ==> ReportedError(r) == Some(CreateRequest(args).error)
    ensures CreateRequest(args).Success? && call.Failure? ==>
      ReportedError(r) == Some(FamilyFailureText(UserTools, call.error))
    ensures CreateRequest(args).Success? && call.Success? ==>
      ReportedSuccess(r) == Some(("User " + call.value.email + " created successfully", CreatedData(call.value)))
  {
    HandleExecution(UserTools,
      match CreateRequest(args)
      case Failure(text) => Success(Rejected(text))
      case Success(_) =>
        match call
        case Failure(t) => Failure(t)
        case Success(u) => Success(FormatSuccess(CreatedData(u), Some("User " + u.email + " created successfully"))))
  }

  /** A rejected argument is reported before the API is called: the outcome of the
      call does not matter. */
  lemma CreateRejectsBeforeCall(args: CreateArgs, c1: Result<User, Thrown>, c2: Result<User, Thrown>)
    requires CreateRequest(args).Failure?
    ensures CreateUserTool(args, c1) == CreateUserTool(args, c2)
  {
  }
}
