/** The dashboard page: the list of the user's projects, the aggregate
    statistics above it, the per-project progress bar and member avatars,
    and the prepend of a newly created project. */
module Dashboard {
  import opened Collections
  import opened Progress

  datatype Member = Member(id: string, name: string, avatar: Option<string>)

  datatype Project = Project(
    id: string,
    name: string,
    description: string,
    memberCount: nat,
    taskCount: nat,
    completedTasks: nat,
    totalDiscussions: nat,
    totalFiles: nat,
    totalLinks: nat,
    lastActivity: string,
    members: seq<Member>,
    isOwner: bool)

  /** What the create-project dialog hands over that the page reads; the
      other keys it sends are overwritten by the statistics the page adds or
      never read. */
  datatype Draft = Draft(id: string, name: string, description: string)

  /** The signed-in user as far as the page reads it. */
  datatype SessionUser = SessionUser(id: string, name: string)

  // ---------------------------------------------------------------------
  // Aggregates: `projects.reduce((sum, p) => sum + p.field, 0)`
  // ---------------------------------------------------------------------

  /** A left fold adding `f` of each project to the accumulator. */
  function Reduce(ps: seq<Project>, acc: nat, f: Project -> nat): (total: nat)
    ensures total >= acc
    ensures ps == [] ==> total == acc
  {
    if ps == [] then acc else Reduce(ps[1..], acc + f(ps[0]), f)
  }

  function TaskCountOf(p: Project): nat { p.taskCount }
  function CompletedOf(p: Project): nat { p.completedTasks }
  function MemberCountOf(p: Project): nat { p.memberCount }

  function TotalTasks(ps: seq<Project>): nat { Reduce(ps, 0, TaskCountOf) }
  function CompletedTasks(ps: seq<Project>): nat { Reduce(ps, 0, CompletedOf) }
  function TotalMembers(ps: seq<Project>): nat { Reduce(ps, 0, MemberCountOf) }

  /** The starting value of the fold only adds to its result. */
  lemma {:induction false} ReduceShift(ps: seq<Project>, acc: nat, f: Project -> nat)
    ensures Reduce(ps, acc, f) == acc + Reduce(ps, 0, f)
    decreases |ps|
  {
    if ps != [] {
      ReduceShift(ps[1..], acc + f(ps[0]), f);
      ReduceShift(ps[1..], f(ps[0]), f);
    }
  }

  /** The fold is the sum: a project in front adds its own value. */
  lemma ReducePrepend(x: Project, ps: seq<Project>, f: Project -> nat)
    ensures Reduce([x] + ps, 0, f) == f(x) + Reduce(ps, 0, f)
  {
    assert ([x] + ps)[1..] == ps;
    ReduceShift(ps, f(x), f);
  }

  /** A pointwise smaller field has a smaller sum. */
  lemma {:induction false} ReduceMonotone(ps: seq<Project>, f: Project -> nat, g: Project -> nat)
    requires forall i :: 0 <= i < |ps| ==> f(ps[i]) <= g(ps[i])
    ensures Reduce(ps, 0, f) <= Reduce(ps, 0, g)
    decreases |ps|
  {
    if ps != [] {
      ReduceMonotone(ps[1..], f, g);
      ReduceShift(ps[1..], f(ps[0]), f);
      ReduceShift(ps[1..], g(ps[0]), g);
    }
  }

  // ---------------------------------------------------------------------
  // Active and completed projects
  // ---------------------------------------------------------------------

  /** The page's test: the rounded progress is below 100. */
  function ShowsIncomplete(p: Project): bool
  {
    Percent(p.completedTasks, p.taskCount) < 100
  }

  /** `projects.filter(p => calculateProgress(...) < 100).length`, as written. */
  function ActiveProjectsAsWritten(ps: seq<Project>): (n: nat)
    ensures n <= |ps|
  {
    |Filter(ps, ShowsIncomplete)|
  }

  /** The evident intent: a project is active while some task is open; a
      project without tasks reads 0% and stays active, as on the page. */
  function HasOpenTasks(p: Project): bool
  {
    p.taskCount == 0 || p.completedTasks < p.taskCount
  }

  function IsFinished(p: Project): bool
  {
    !HasOpenTasks(p)
  }

  function ActiveProjects(ps: seq<Project>): (n: nat)
    ensures n <= |ps|
  {
    |Filter(ps, HasOpenTasks)|
  }

  /** The "completed" figure `totalProjects - activeProjects`: never
      negative, and exactly the number of projects with every task done. */
  function CompletedProjects(ps: seq<Project>): (n: nat)
    ensures n == |ps| - ActiveProjects(ps)
    ensures n == |Filter(ps, IsFinished)|
  {
    FilterSplit(ps, HasOpenTasks, IsFinished);
    |ps| - ActiveProjects(ps)
  }

  /** The rounded test and the intended one disagree exactly on projects
      with open tasks that make up at most half a percent of all tasks. */
  lemma IncompleteAgreement(p: Project)
    ensures ShowsIncomplete(p) != HasOpenTasks(p) <==>
            p.completedTasks < p.taskCount && 200 * (p.taskCount - p.completedTasks) <= p.taskCount
  {
    var c, t := p.completedTasks, p.taskCount;
    if t > 0 {
      if c <= t {
        PercentHundred(c, t);
        PercentBounds(c, t);
      } else {
        PercentBounds(t, t);
        PercentMonotone(t, c, t);
      }
    }
  }

  /** Below 200 tasks per project, the rounding never hides an open task. */
  lemma ActiveAgreement(ps: seq<Project>)
    requires forall i :: 0 <= i < |ps| ==> ps[i].taskCount < 200
    ensures ActiveProjectsAsWritten(ps) == ActiveProjects(ps)
  {
    forall i | 0 <= i < |ps|
      ensures ShowsIncomplete(ps[i]) == HasOpenTasks(ps[i])
    {
      IncompleteAgreement(ps[i]);
    }
    FilterCongruent(ps, ShowsIncomplete, HasOpenTasks);
  }

  /** A project with 999 of 1000 tasks done rounds to 100% and is shown as
      completed, though one task is still open. */
  lemma NearlyDoneCountedCompleted()
    ensures var p := Project("p", "Nearly done", "", 1, 1000, 999, 0, 0, 0, "", [], true);
            HasOpenTasks(p) && ActiveProjectsAsWritten([p]) == 0 && ActiveProjects([p]) == 1
  {
    var p := Project("p", "Nearly done", "", 1, 1000, 999, 0, 0, 0, "", [], true);
    PercentUnique(999, 1000, 100);
    FilterPrepend(p, [], ShowsIncomplete);
    FilterPrepend(p, [], HasOpenTasks);
  }

  // ---------------------------------------------------------------------
  // Completion rate
  // ---------------------------------------------------------------------

  /** `totalTasks > 0 ? Math.round(completedTasks / totalTasks * 100) : 0`. */
  function CompletionRate(ps: seq<Project>): nat
  {
    Percent(CompletedTasks(ps), TotalTasks(ps))
  }

  ghost predicate Consistent(ps: seq<Project>)
  {
    forall i :: 0 <= i < |ps| ==> ps[i].completedTasks <= ps[i].taskCount
  }

  /** No tasks anywhere reads 0%; consistent counts stay within 100%; all
      tasks everywhere done reads 100%. */
  lemma CompletionRateBounds(ps: seq<Project>)
    ensures TotalTasks(ps) == 0 ==> CompletionRate(ps) == 0
    ensures Consistent(ps) ==> CompletedTasks(ps) <= TotalTasks(ps) && CompletionRate(ps) <= 100
    ensures (forall i :: 0 <= i < |ps| ==> ps[i].completedTasks == ps[i].taskCount) && TotalTasks(ps) > 0 ==>
            CompletionRate(ps) == 100
  {
    if Consistent(ps) {
      ReduceMonotone(ps, CompletedOf, TaskCountOf);
      PercentBounds(CompletedTasks(ps), TotalTasks(ps));
    }
    if forall i :: 0 <= i < |ps| ==> ps[i].completedTasks == ps[i].taskCount {
      ReduceMonotone(ps, CompletedOf, TaskCountOf);
      ReduceMonotone(ps, TaskCountOf, CompletedOf);
      PercentBounds(CompletedTasks(ps), TotalTasks(ps));
    }
  }

  // ---------------------------------------------------------------------
  // Creating a project
  // ---------------------------------------------------------------------

  /** `user?.id || "1"` and `user?.name || "You"`: a missing user or an empty
      string falls back to the default. */
  function CreatorMember(user: Option<SessionUser>): (m: Member)
    ensures user.Some? && user.value.id != "" ==> m.id == user.value.id
    ensures user.None? || user.value.id == "" ==> m.id == "1"
    ensures user.Some? && user.value.name != "" ==> m.name == user.value.name
    ensures user.None? || user.value.name == "" ==> m.name == "You"
    ensures m.avatar.None?
  {
    var id := if user.Some? && user.value.id != "" then user.value.id else "1";
    var name := if user.Some? && user.value.name != "" then user.value.name else "You";
    Member(id, name, None)
  }

  /** The draft with fresh statistics: one member, no tasks, discussions,
      files or links, and owned by the creator. */
  function WithStats(draft: Draft, user: Option<SessionUser>): (p: Project)
    ensures p.id == draft.id && p.name == draft.name && p.description == draft.description
    ensures p.memberCount == 1 && p.members == [CreatorMember(user)]
    ensures p.taskCount == 0 && p.completedTasks == 0
    ensures p.totalDiscussions == 0 && p.totalFiles == 0 && p.totalLinks == 0
    ensures p.lastActivity == "Just now" && p.isOwner
  {
    Project(draft.id, draft.name, draft.description, 1, 0, 0, 0, 0, 0, "Just now",
            [CreatorMember(user)], true)
  }

  function ProjectCreated(ps: seq<Project>, draft: Draft, user: Option<SessionUser>): seq<Project>
  {
    [WithStats(draft, user)] + ps
  }

  /** Creating a project puts exactly one new project in front, adds one
      member and one active project to the statistics, and leaves the task
      totals and the completion rate as they were. */
  lemma ProjectCreatedSpec(ps: seq<Project>, draft: Draft, user: Option<SessionUser>)
    ensures var r := ProjectCreated(ps, draft, user);
            |r| == |ps| + 1 && r[0] == WithStats(draft, user) && r[1..] == ps &&
            TotalTasks(r) == TotalTasks(ps) && CompletedTasks(r) == CompletedTasks(ps) &&
            TotalMembers(r) == TotalMembers(ps) + 1 &&
            ActiveProjects(r) == ActiveProjects(ps) + 1 &&
            ActiveProjectsAsWritten(r) == ActiveProjectsAsWritten(ps) + 1 &&
            CompletedProjects(r) == CompletedProjects(ps) &&
            CompletionRate(r) == CompletionRate(ps)
  {
    var p := WithStats(draft, user);
    var r := ProjectCreated(ps, draft, user);
    assert r[1..] == ps;
    ReducePrepend(p, ps, TaskCountOf);
    ReducePrepend(p, ps, CompletedOf);
    ReducePrepend(p, ps, MemberCountOf);
    FilterPrepend(p, ps, HasOpenTasks);
    FilterPrepend(p, ps, ShowsIncomplete);
  }

  // ---------------------------------------------------------------------
  // Member avatars
  // ---------------------------------------------------------------------

  /** `members.slice(0, 3)`: the first three members, or all of them. */
  function ShownAvatars(p: Project): (r: seq<Member>)
    ensures |r| <= 3 && |r| <= |p.members| && r == p.members[..|r|]
    ensures |r| == if |p.members| <= 3 then |p.members| else 3
  {
    if |p.members| <= 3 then p.members else p.members[..3]
  }

  /** The "+n" badge: present only above three members, reading the count
      of members beyond the third. */
  function Overflow(p: Project): (b: Option<nat>)
    ensures b.Some? <==> p.memberCount > 3
    ensures b.Some? ==> b.value + 3 == p.memberCount
    ensures |p.members| == p.memberCount ==>
              |ShownAvatars(p)| + (if b.Some? then b.value else 0) == p.memberCount
  {
    if p.memberCount > 3 then Some(p.memberCount - 3) else None
  }

  // ---------------------------------------------------------------------
  // Seed data and the page
  // ---------------------------------------------------------------------

  function InitialProjects(): seq<Project>
  {
    [ Project("1", "Website Redesign",
              "Complete overhaul of company website " + "with modern design and improved UX",
              4, 12, 8, 15, 8, 12, "2 hours ago",
              [ Member("1", "Alice Johnson", None), Member("2", "Bob Smith", None),
                Member("3", "Carol Davis", None), Member("4", "David Wilson", None) ],
              true),
      Project("2", "Mobile App Development",
              "React Native app for iOS and Android platforms",
              6, 18, 5, 23, 15, 8, "1 day ago",
              [ Member("1", "Alice Johnson", None), Member("5", "Eva Martinez", None),
                Member("6", "Frank Garcia", None), Member("7", "Grace Lee", None) ],
              false),
      Project("3", "Database Migration",
              "Migrate from MongoDB to PostgreSQL " + "for better performance",
              3, 8, 8, 6, 4, 3, "3 days ago",
              [ Member("1", "Alice Johnson", None), Member("8", "Henry Kim", None),
                Member("9", "Ivy Chen", None) ],
              true) ]
  }

  /** The seeded page shows 38 tasks, 21 done, 13 members and 55% overall. */
  lemma InitialTotals()
    ensures TotalTasks(InitialProjects()) == 38
    ensures CompletedTasks(InitialProjects()) == 21
    ensures TotalMembers(InitialProjects()) == 13
    ensures CompletionRate(InitialProjects()) == 55
  {
    PercentUnique(21, 38, 55);
  }

  /** Two seeded projects are active and one completed, by either test. */
  lemma InitialActivity()
    ensures ActiveProjects(InitialProjects()) == 2 == ActiveProjectsAsWritten(InitialProjects())
    ensures CompletedProjects(InitialProjects()) == 1
  {
    ActiveAgreement(InitialProjects());
  }

  /** The dashboard's state: the project list. */
  class Page {
    var projects: seq<Project>

    constructor()
      ensures projects == InitialProjects()
    {
      projects := InitialProjects();
    }

    /** `handleProjectCreated`: prepend the draft with fresh statistics. */
    method HandleProjectCreated(draft: Draft, user: Option<SessionUser>)
      modifies this
      ensures projects == ProjectCreated(old(projects), draft, user)
      ensures projects[0] == WithStats(draft, user) && projects[1..] == old(projects)
    {
      projects := [WithStats(draft, user)] + projects;
      assert projects[1..] == old(projects);
    }
  }
}
