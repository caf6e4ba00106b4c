/** The form schemas: for each schema, the set of fields whose rule an input
    breaks. A schema accepts an input exactly when that set is empty. String
    lengths are JavaScript's: UTF-16 code units. The library's e-mail and URL format
    checks are parameters; the password-confirmation refinement reports on
    the confirmation field alongside any field failures. */
module Validations {
  import opened Collections
  import opened Constants
  import opened Text
  import KanbanBoard

  datatype Field =
    | Name | Email | Password | ConfirmPassword | Description | Title
    | Status | Text | Url | RoleId | Permissions | CurrentPassword | NewPassword

  /** `z.string().min(lo).max(hi)`. */
  predicate LengthWithin(s: string, lo: nat, hi: nat)
  {
    lo <= JsLength(s) <= hi
  }

  function If(broken: bool, f: Field): set<Field>
  {
    if broken then {f} else {}
  }

  // --- authentication ---------------------------------------------------

  function LoginIssues(email: string, password: string, isEmail: string -> bool): (issues: set<Field>)
    ensures issues <= {Email, Password}
    ensures Email in issues <==> !isEmail(email)
    ensures Password in issues <==> JsLength(password) < 8
  {
    If(!isEmail(email), Email) + If(JsLength(password) < 8, Password)
  }

  function RegisterIssues(name: string, email: string, password: string, confirmPassword: string,
                          isEmail: string -> bool): (issues: set<Field>)
    ensures issues <= {Name, Email, Password, ConfirmPassword}
    ensures Name in issues <==> JsLength(name) < 2
    ensures Email in issues <==> !isEmail(email)
    ensures Password in issues <==> JsLength(password) < 8
    ensures ConfirmPassword in issues <==> password != confirmPassword
  {
    If(JsLength(name) < 2, Name) + If(!isEmail(email), Email) + If(JsLength(password) < 8, Password) +
    If(password != confirmPassword, ConfirmPassword)
  }

  function ResetPasswordIssues(email: string, isEmail: string -> bool): (issues: set<Field>)
    ensures issues == {} <==> isEmail(email)
  {
    If(!isEmail(email), Email)
  }

  function NewPasswordIssues(password: string, confirmPassword: string): (issues: set<Field>)
    ensures issues <= {Password, ConfirmPassword}
    ensures Password in issues <==> JsLength(password) < 8
    ensures ConfirmPassword in issues <==> password != confirmPassword
  {
    If(JsLength(password) < 8, Password) + If(password != confirmPassword, ConfirmPassword)
  }

  function ChangePasswordIssues(currentPassword: string, newPassword: string, confirmPassword: string): (issues: set<Field>)
    ensures issues <= {CurrentPassword, NewPassword, ConfirmPassword}
    ensures CurrentPassword in issues <==> currentPassword == ""
    ensures NewPassword in issues <==> JsLength(newPassword) < 8
    ensures ConfirmPassword in issues <==> newPassword != confirmPassword
  {
    If(currentPassword == "", CurrentPassword) + If(JsLength(newPassword) < 8, NewPassword) +
    If(newPassword != confirmPassword, ConfirmPassword)
  }

  /** Any registration the schema accepts has a password the login schema
      accepts too, typed the same way twice. */
  lemma RegisteredPasswordPassesLogin(name: string, email: string, password: string, confirmPassword: string,
                                      isEmail: string -> bool)
    requires RegisterIssues(name, email, password, confirmPassword, isEmail) == {}
    ensures LoginIssues(email, password, isEmail) == {}
    ensures password == confirmPassword && NewPasswordIssues(password, confirmPassword) == {}
  {
    assert Email !in RegisterIssues(name, email, password, confirmPassword, isEmail);
    assert Password !in RegisterIssues(name, email, password, confirmPassword, isEmail);
    assert ConfirmPassword !in RegisterIssues(name, email, password, confirmPassword, isEmail);
  }

  /** A change the schema accepts sets a password the new-password schema
      accepts. */
  lemma ChangedPasswordIsNewPassword(currentPassword: string, newPassword: string, confirmPassword: string)
    requires ChangePasswordIssues(currentPassword, newPassword, confirmPassword) == {}
    ensures NewPasswordIssues(newPassword, confirmPassword) == {}
  {
    assert NewPassword !in ChangePasswordIssues(currentPassword, newPassword, confirmPassword);
    assert ConfirmPassword !in ChangePasswordIssues(currentPassword, newPassword, confirmPassword);
  }

  // --- projects, tasks, comments, links -----------------------------------

  /** The rules shared by the create- and update-project schemas. */
  function ProjectIssues(name: string, description: string): (issues: set<Field>)
    ensures issues == {} <==> 1 <= JsLength(name) <= 100 && 1 <= JsLength(description) <= 500
    ensures Name in issues <==> !LengthWithin(name, 1, 100)
    ensures Description in issues <==> !LengthWithin(description, 1, 500)
    ensures issues <= {Name, Description}
  {
    If(!LengthWithin(name, 1, 100), Name) + If(!LengthWithin(description, 1, 500), Description)
  }

  /** The create-task schema: only the title is constrained; the optional
      description, assignee and due date always pass. */
  function CreateTaskIssues(title: string): (issues: set<Field>)
    ensures issues == {} <==> 1 <= JsLength(title) <= 255
    ensures issues <= {Title}
  {
    If(!LengthWithin(title, 1, 255), Title)
  }

  /** The update-task schema: the title rule plus a status drawn from the
      task-status constants. */
  function UpdateTaskIssues(title: string, status: string): (issues: set<Field>)
    ensures issues <= {Title, Status}
    ensures Title in issues <==> !LengthWithin(title, 1, 255)
    ensures Status in issues <==> status !in TaskStatuses()
  {
    If(!LengthWithin(title, 1, 255), Title) + If(status !in TaskStatuses(), Status)
  }

  /** The status the update schema accepts is exactly a board column. */
  lemma UpdateTaskStatusIsColumn(title: string, status: string)
    ensures Status !in UpdateTaskIssues(title, status) <==> KanbanBoard.ColumnOf(status).Some?
    ensures forall s: KanbanBoard.Status :: Status !in UpdateTaskIssues(title, KanbanBoard.StatusName(s))
  {
    TaskStatusesMatchBoard(status);
  }

  function CommentIssues(text: string): (issues: set<Field>)
    ensures issues == {} <==> 1 <= JsLength(text) <= 1000
  {
    If(!LengthWithin(text, 1, 1000), Text)
  }

  /** The create-link schema: a missing description always passes, a given
      one may have up to 500 code units. */
  function LinkIssues(title: string, url: string, description: Option<string>, isUrl: string -> bool): (issues: set<Field>)
    ensures issues <= {Title, Url, Description}
    ensures Title in issues <==> !LengthWithin(title, 1, 255)
    ensures Url in issues <==> !isUrl(url)
    ensures Description in issues <==> description.Some? && JsLength(description.value) > 500
  {
    If(!LengthWithin(title, 1, 255), Title) + If(!isUrl(url), Url) +
    If(description.Some? && JsLength(description.value) > 500, Description)
  }

  // --- members, roles, profile --------------------------------------------

  function InviteMemberIssues(email: string, roleId: string, isEmail: string -> bool): (issues: set<Field>)
    ensures issues <= {Email, RoleId}
    ensures Email in issues <==> !isEmail(email)
    ensures RoleId in issues <==> roleId == ""
  {
    If(!isEmail(email), Email) + If(roleId == "", RoleId)
  }

  function CreateRoleIssues(name: string, permissions: seq<string>): (issues: set<Field>)
    ensures issues <= {Name, Permissions}
    ensures Name in issues <==> !LengthWithin(name, 1, 100)
    ensures Permissions in issues <==> permissions == []
  {
    If(!LengthWithin(name, 1, 100), Name) + If(permissions == [], Permissions)
  }

  /** Every default role passes the create-role schema. */
  lemma DefaultRolesValid(r: DefaultRole)
    requires r == ProjectManager() || r == MemberRole() || r == ViewerRole()
    ensures CreateRoleIssues(r.name, r.permissions) == {}
  {
    if r == ProjectManager() {
      ProjectManagerValid();
    } else if r == MemberRole() {
      MemberRoleValid();
    } else {
      ViewerRoleValid();
    }
  }

  lemma ProjectManagerValid()
    ensures CreateRoleIssues(ProjectManager().name, ProjectManager().permissions) == {}
  {
  }

  lemma MemberRoleValid()
    ensures CreateRoleIssues(MemberRole().name, MemberRole().permissions) == {}
  {
  }

  lemma ViewerRoleValid()
    ensures CreateRoleIssues(ViewerRole().name, ViewerRole().permissions) == {}
  {
  }

  function UpdateProfileIssues(name: string): (issues: set<Field>)
    ensures issues == {} <==> 2 <= JsLength(name) <= 100
  {
    If(!LengthWithin(name, 2, 100), Name)
  }
}
