/** The application's constant tables: the project permissions, the default
    roles built from them, the task statuses and the user roles. */
module Constants {
  import opened KanbanBoard

  ghost predicate Distinct(s: seq<string>)
  {
    forall i, j :: 0 <= i < j < |s| ==> s[i] != s[j]
  }

  ghost function AsSet(s: seq<string>): set<string>
  {
    set x | x in s
  }

  /** `Object.values(PROJECT_PERMISSIONS)`, in declaration order. */
  function ProjectPermissions(): seq<string>
  {
    [ "manage_project", "delete_project", "archive_project",
      "invite_members", "remove_members", "manage_roles",
      "create_tasks", "edit_tasks", "delete_tasks", "assign_tasks",
      "upload_files", "delete_files", "create_links", "delete_links",
      "post_comments", "delete_comments", "moderate_discussions" ]
  }

  datatype DefaultRole = DefaultRole(name: string, permissions: seq<string>)

  function ProjectManager(): DefaultRole
  {
    DefaultRole("Project Manager", ProjectPermissions())
  }

  function MemberRole(): DefaultRole
  {
    DefaultRole("Member", ["create_tasks", "edit_tasks", "upload_files", "create_links", "post_comments"])
  }

  function ViewerRole(): DefaultRole
  {
    DefaultRole("Viewer", ["post_comments"])
  }

  function TaskStatuses(): seq<string>
  {
    ["todo", "in_progress", "done"]
  }

  function UserRoles(): seq<string>
  {
    ["admin", "user"]
  }

  /** Seventeen distinct permissions, all held by the project manager. */
  lemma PermissionsDistinct()
    ensures |ProjectPermissions()| == 17 && Distinct(ProjectPermissions())
    ensures ProjectManager().permissions == ProjectPermissions()
  {
  }

  /** The default roles are nested: every viewer permission is a member
      permission and every member permission a project-manager permission,
      each strictly; the member role has five distinct permissions. */
  lemma RolesNested()
    ensures |MemberRole().permissions| == 5 && Distinct(MemberRole().permissions)
    ensures AsSet(ViewerRole().permissions) < AsSet(MemberRole().permissions)
    ensures AsSet(MemberRole().permissions) < AsSet(ProjectManager().permissions)
  {
    var pm := ProjectPermissions();
    assert "create_tasks" == pm[6] && "edit_tasks" == pm[7] && "upload_files" == pm[10];
    assert "create_links" == pm[12] && "post_comments" == pm[14];
    assert "manage_project" in AsSet(pm) && "manage_project" !in AsSet(MemberRole().permissions);
    assert "create_tasks" in AsSet(MemberRole().permissions) && "create_tasks" !in AsSet(ViewerRole().permissions);
  }

  /** The three status values are distinct and are exactly the board's
      column ids. */
  lemma TaskStatusesMatchBoard(v: string)
    ensures Distinct(TaskStatuses())
    ensures TaskStatuses() == [StatusName(Todo), StatusName(InProgress), StatusName(Done)]
    ensures v in TaskStatuses() <==> ColumnOf(v).Some?
  {
  }

  lemma UserRolesDistinct()
    ensures |UserRoles()| == 2 && Distinct(UserRoles())
  {
  }
}
