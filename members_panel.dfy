/** The project members panel: the member list, inviting by email, changing
    a member's role, removing a member, the search filter and the role
    counts shown in the stats and the roles dialog. */
module MembersPanel {
  import opened Collections
  import opened Text
  import opened Elapsed

  /** The role types "owner", "admin" and "member"; the last is called
      `Contributor` here because `Member` names the member record. */
  datatype RoleType = Owner | Admin | Contributor
  datatype Presence = Online | Offline | Away

  datatype Role = Role(id: string, name: string, roleType: RoleType, permissions: seq<string>)

  /** A member; `joinedAt` and `lastActive` are millisecond timestamps. */
  datatype Member = Member(
    id: string,
    name: string,
    email: string,
    avatar: Option<string>,
    role: Role,
    joinedAt: int,
    lastActive: int,
    status: Presence)

  /** The two roles the invite and change-role dialogs offer. */
  datatype AssignableRole = AsAdmin | AsMember

  function TypeOf(r: AssignableRole): RoleType
  {
    if r == AsAdmin then Admin else Contributor
  }

  /** The role's string value, which an invite also uses as the role id. */
  function RoleKey(r: AssignableRole): string
  {
    if r == AsAdmin then "admin" else "member"
  }

  function RoleName(r: AssignableRole): string
  {
    if r == AsAdmin then "Administrator" else "Team Member"
  }

  function RolePermissions(r: AssignableRole): seq<string>
  {
    if r == AsAdmin then ["view_project", "manage_tasks", "manage_files", "manage_members"]
    else ["view_project", "manage_tasks"]
  }

  /** Admins get four distinct permissions, members the first two of them. */
  lemma RolePermissionsFacts()
    ensures |RolePermissions(AsAdmin)| == 4 && |RolePermissions(AsMember)| == 2
    ensures RolePermissions(AsMember) == RolePermissions(AsAdmin)[..2]
    ensures forall i, j :: 0 <= i < j < 4 ==> RolePermissions(AsAdmin)[i] != RolePermissions(AsAdmin)[j]
  {
  }

  datatype InviteForm = InviteForm(email: string, role: AssignableRole, message: string)

  const EmptyInvite := InviteForm("", AsMember, "")

  /** The member an invite creates, with the fresh id and the clock reading
      as parameters. */
  function InvitedMember(form: InviteForm, id: string, now: int): Member
  {
    Member(id, Split(form.email, '@')[0], form.email, None,
           Role(RoleKey(form.role), RoleName(form.role), TypeOf(form.role), RolePermissions(form.role)),
           now, now, Offline)
  }

  /** `handleSendInvite` on the member list. */
  function SendInvite(members: seq<Member>, form: InviteForm, id: string, now: int): seq<Member>
  {
    if form.email == "" then members else members + [InvitedMember(form, id, now)]
  }

  /** An invite without an email changes nothing; otherwise exactly one
      member is appended, named by the part of the email before the first
      `@`, offline, joined and last active now, with the chosen role, its
      name and its permissions. */
  lemma SendInviteSpec(members: seq<Member>, form: InviteForm, id: string, now: int)
    ensures form.email == "" ==> SendInvite(members, form, id, now) == members
    ensures form.email != "" ==>
              var r := SendInvite(members, form, id, now);
              var m := r[|members|];
              |r| == |members| + 1 && r[..|members|] == members &&
              m.id == id && m.email == form.email && m.status == Offline &&
              StartsWith(form.email, m.name) && '@' !in m.name &&
              (|m.name| < |form.email| ==> form.email[|m.name|] == '@') &&
              m.role.roleType == TypeOf(form.role) && m.role.id == RoleKey(form.role) &&
              m.role.permissions == RolePermissions(form.role) &&
              m.role.name == RoleName(form.role) && m.avatar.None? &&
              m.joinedAt == now && m.lastActive == now
  {
    SplitFirstPiece(form.email, '@');
    if form.email != "" {
      assert SendInvite(members, form, id, now)[..|members|] == members;
    }
  }

  function WithRole(selectedId: string, newRole: AssignableRole): Member -> Member
  {
    (m: Member) =>
      if m.id == selectedId
      then m.(role := m.role.(roleType := TypeOf(newRole), name := RoleName(newRole),
                              permissions := RolePermissions(newRole)))
      else m
  }

  /** `handleUpdateRole` on the member list. */
  function UpdateRole(members: seq<Member>, selected: Option<Member>, newRole: AssignableRole): seq<Member>
  {
    if selected.None? then members else Map(members, WithRole(selected.value.id, newRole))
  }

  /** Without a selected member nothing changes; otherwise only the members
      with the selected id get the new role's type, name and permissions,
      and they keep their role id. */
  lemma UpdateRoleSpec(members: seq<Member>, selected: Option<Member>, newRole: AssignableRole)
    ensures selected.None? ==> UpdateRole(members, selected, newRole) == members
    ensures |UpdateRole(members, selected, newRole)| == |members|
    ensures forall i :: 0 <= i < |members| ==>
              var r := UpdateRole(members, selected, newRole)[i];
              if selected.Some? && members[i].id == selected.value.id
              then r.role.roleType == TypeOf(newRole) && r.role.name == RoleName(newRole) &&
                   r.role.permissions == RolePermissions(newRole) && r.role.id == members[i].role.id &&
                   r.(role := members[i].role) == members[i]
              else r == members[i]
  {
  }

  function IsAdminOrOwner(): Member -> bool
  {
    (m: Member) => m.role.roleType == Admin || m.role.roleType == Owner
  }

  function HasType(t: RoleType): Member -> bool { (m: Member) => m.role.roleType == t }

  function IsOnline(): Member -> bool { (m: Member) => m.status == Online }

  /** The "Admins" stat. */
  function AdminCount(members: seq<Member>): nat
  {
    Count(members, IsAdminOrOwner())
  }

  /** The per-role badges of the roles dialog. */
  function CountOfType(members: seq<Member>, t: RoleType): nat
  {
    Count(members, HasType(t))
  }

  /** The "Online Now" stat. */
  function OnlineCount(members: seq<Member>): nat
  {
    Count(members, IsOnline())
  }

  /** The "Online Now" stat never exceeds the member count and is zero
      exactly when nobody is online. */
  lemma {:induction false} OnlineCountSpec(members: seq<Member>)
    ensures OnlineCount(members) <= |members|
    ensures OnlineCount(members) == 0 <==> forall i :: 0 <= i < |members| ==> members[i].status != Online
    decreases |members|
  {
    if members != [] {
      OnlineCountSpec(members[1..]);
      assert forall i :: 1 <= i < |members| ==> members[i] == members[1..][i - 1];
    }
  }

  /** The admin stat is the admin badge's count plus the owners, and the
      admin and member badges' counts plus the owners count every member
      once (the owner badge itself is the fixed text "1 member"). */
  lemma {:induction false} RoleCounts(members: seq<Member>)
    ensures AdminCount(members) == CountOfType(members, Admin) + CountOfType(members, Owner)
    ensures CountOfType(members, Owner) + CountOfType(members, Admin) + CountOfType(members, Contributor) == |members|
    decreases |members|
  {
    if members != [] {
      RoleCounts(members[1..]);
    }
  }

  /** Making someone an admin never lowers the admin stat; making someone a
      member never raises it. */
  lemma {:induction false} UpdateRoleAdminCount(members: seq<Member>, id: string, newRole: AssignableRole)
    ensures newRole == AsAdmin ==> AdminCount(Map(members, WithRole(id, newRole))) >= AdminCount(members)
    ensures newRole == AsMember ==> AdminCount(Map(members, WithRole(id, newRole))) <= AdminCount(members)
    decreases |members|
  {
    if members != [] {
      UpdateRoleAdminCount(members[1..], id, newRole);
      var f := WithRole(id, newRole);
      MapCons(members, f);
      FilterPrepend(f(members[0]), Map(members[1..], f), IsAdminOrOwner());
      FilterPrepend(members[0], members[1..], IsAdminOrOwner());
      assert [members[0]] + members[1..] == members;
    }
  }

  function LacksId(id: string): Member -> bool { (m: Member) => m.id != id }

  /** `handleRemoveMember`. */
  function RemoveMember(members: seq<Member>, id: string): seq<Member>
  {
    Filter(members, LacksId(id))
  }

  /** A removal drops the members with the id and keeps the others in order,
      each as often as before. */
  lemma RemoveMemberSpec(members: seq<Member>, id: string)
    ensures forall i :: 0 <= i < |RemoveMember(members, id)| ==> RemoveMember(members, id)[i].id != id
    ensures forall i :: 0 <= i < |members| && members[i].id != id ==> members[i] in RemoveMember(members, id)
    ensures IsSubsequence(RemoveMember(members, id), members)
    ensures forall m: Member :: multiset(RemoveMember(members, id))[m] == if m.id == id then 0 else multiset(members)[m]
  {
    forall m: Member ensures multiset(RemoveMember(members, id))[m] == if m.id == id then 0 else multiset(members)[m] {
      FilterMultiplicity(members, LacksId(id), m);
    }
    FilterIsSubsequence(members, LacksId(id));
  }

  /** The search predicate: the lower-cased query occurs in the lower-cased
      name, email or role name. */
  function Matches(query: string): Member -> bool
  {
    (m: Member) =>
      Contains(Lower(m.name), Lower(query)) || Contains(Lower(m.email), Lower(query)) ||
      Contains(Lower(m.role.name), Lower(query))
  }

  /** `filteredMembers`. */
  function FilteredMembers(members: seq<Member>, query: string): seq<Member>
  {
    Filter(members, Matches(query))
  }

  /** The filter keeps exactly the matching members, in order; the empty
      query keeps everyone; the query's case does not matter. */
  lemma FilteredMembersSpec(members: seq<Member>, query: string)
    ensures forall i :: 0 <= i < |FilteredMembers(members, query)| ==> Matches(query)(FilteredMembers(members, query)[i])
    ensures forall i :: 0 <= i < |members| && Matches(query)(members[i]) ==> members[i] in FilteredMembers(members, query)
    ensures IsSubsequence(FilteredMembers(members, query), members)
    ensures query == "" ==> FilteredMembers(members, query) == members
    ensures FilteredMembers(members, Lower(query)) == FilteredMembers(members, query)
  {
    FilterIsSubsequence(members, Matches(query));
    if query == "" {
      forall i | 0 <= i < |members| ensures Matches(query)(members[i]) {
        ContainsEmpty(Lower(members[i].name));
      }
      FilterKeepsAll(members, Matches(query));
    }
    LowerIdempotent(query);
    FilterCongruent(members, Matches(Lower(query)), Matches(query));
  }

  /** `formatTimeAgo(date)` against the clock reading `now`. */
  function FormatTimeAgo(date: int, now: int): Label
  {
    TimeAgo(DiffInMinutes(now - date))
  }

  const Day := 24 * 3600000

  /** The member list on mount, timestamped relative to `now`. */
  function InitialMembers(now: int): seq<Member>
  {
    [
      Member("1", "John Doe", "john@company.com", None,
             Role("owner", "Project Manager", Owner, ["all"]), now - 30 * Day, now - 30 * 60000, Online),
      Member("2", "Jane Smith", "jane@company.com", None,
             Role("developer", "Lead Developer", Admin, ["manage_tasks", "manage_files", "manage_members"]),
             now - 25 * Day, now - 2 * 3600000, Away),
      Member("3", "Mike Chen", "mike@company.com", None,
             Role("designer", "UI/UX Designer", Contributor, ["view_project", "manage_tasks", "manage_files"]),
             now - 20 * Day, now - Day, Offline),
      Member("4", "Sarah Wilson", "sarah@company.com", None,
             Role("marketing", "Marketing Specialist", Contributor, ["view_project", "manage_files"]),
             now - 15 * Day, now - 4 * 3600000, Online)
    ]
  }

  /** The panel's state. */
  class Panel {
    var members: seq<Member>
    var searchQuery: string
    var inviteForm: InviteForm
    var selectedMember: Option<Member>
    var showInviteDialog: bool
    var showChangeRoleDialog: bool

    constructor (now: int)
      ensures members == InitialMembers(now) && searchQuery == "" && inviteForm == EmptyInvite
      ensures selectedMember == None && !showInviteDialog && !showChangeRoleDialog
    {
      members := InitialMembers(now);
      searchQuery := "";
      inviteForm := EmptyInvite;
      selectedMember := None;
      showInviteDialog := false;
      showChangeRoleDialog := false;
    }

    method SetSearchQuery(q: string)
      modifies this
      ensures searchQuery == q && members == old(members) && inviteForm == old(inviteForm)
      ensures selectedMember == old(selectedMember)
      ensures showInviteDialog == old(showInviteDialog) && showChangeRoleDialog == old(showChangeRoleDialog)
    {
      searchQuery := q;
    }

    method SetInviteForm(form: InviteForm)
      modifies this
      ensures inviteForm == form && members == old(members) && searchQuery == old(searchQuery)
      ensures selectedMember == old(selectedMember)
      ensures showInviteDialog == old(showInviteDialog) && showChangeRoleDialog == old(showChangeRoleDialog)
    {
      inviteForm := form;
    }

    /** `handleSendInvite`: with an email the member is appended, the form
      reset and the dialog closed; without one nothing changes. */
    method HandleSendInvite(id: string, now: int)
      modifies this
      ensures members == SendInvite(old(members), old(inviteForm), id, now)
      ensures old(inviteForm).email != "" ==> inviteForm == EmptyInvite && !showInviteDialog
      ensures old(inviteForm).email == "" ==> inviteForm == old(inviteForm) && showInviteDialog == old(showInviteDialog)
      ensures searchQuery == old(searchQuery) && selectedMember == old(selectedMember)
      ensures showChangeRoleDialog == old(showChangeRoleDialog)
    {
      if inviteForm.email != "" {
        var newMember := InvitedMember(inviteForm, id, now);
        members := members + [newMember];
        inviteForm := EmptyInvite;
        showInviteDialog := false;
      }
    }

    /** `handleChangeRole`: selects the member with the id, if there is one,
      and opens the change-role dialog. */
    method HandleChangeRole(memberId: string)
      modifies this
      ensures var found := Find(old(members), (m: Member) => m.id == memberId);
              (found.Some? ==> selectedMember == found && showChangeRoleDialog) &&
              (found.None? ==> selectedMember == old(selectedMember) &&
                               showChangeRoleDialog == old(showChangeRoleDialog))
      ensures members == old(members) && searchQuery == old(searchQuery) && inviteForm == old(inviteForm)
      ensures showInviteDialog == old(showInviteDialog)
    {
      var found := Find(members, (m: Member) => m.id == memberId);
      if found.Some? {
        selectedMember := found;
        showChangeRoleDialog := true;
      }
    }

    /** `handleUpdateRole`: with a selected member, its role changes and the
      selection and dialog are cleared; without one nothing changes. */
    method HandleUpdateRole(newRole: AssignableRole)
      modifies this
      ensures members == UpdateRole(old(members), old(selectedMember), newRole)
      ensures old(selectedMember).Some? ==> selectedMember == None && !showChangeRoleDialog
      ensures old(selectedMember).None? ==> selectedMember == None &&
                                            showChangeRoleDialog == old(showChangeRoleDialog)
      ensures searchQuery == old(searchQuery) && inviteForm == old(inviteForm)
      ensures showInviteDialog == old(showInviteDialog)
    {
      if selectedMember.Some? {
        members := Map(members, WithRole(selectedMember.value.id, newRole));
        showChangeRoleDialog := false;
        selectedMember := None;
      }
    }

    method HandleRemoveMember(memberId: string)
      modifies this
      ensures members == RemoveMember(old(members), memberId)
      ensures searchQuery == old(searchQuery) && inviteForm == old(inviteForm)
      ensures selectedMember == old(selectedMember)
      ensures showInviteDialog == old(showInviteDialog) && showChangeRoleDialog == old(showChangeRoleDialog)
    {
      members := Filter(members, LacksId(memberId));
    }
  }
}
