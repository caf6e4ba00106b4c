/** A project card: the progress percentage and the completed and open task
    counts shown for one project. */
module ProjectCard {
  import opened Collections
  import opened Progress

  datatype CardProject = CardProject(
    id: string,
    name: string,
    description: Option<string>,
    memberCount: nat,
    taskCount: nat,
    completedTasks: nat,
    lastActivity: string)

  /** `progressPercentage`: 0 without tasks, 100 with every task done, and
      within 0 to 100 while the counts are consistent. */
  function ProgressPercentage(p: CardProject): (pct: nat)
    ensures p.taskCount == 0 ==> pct == 0
    ensures p.completedTasks == p.taskCount > 0 ==> pct == 100
    ensures p.completedTasks <= p.taskCount ==> pct <= 100
  {
    PercentBounds(p.completedTasks, p.taskCount);
    Percent(p.completedTasks, p.taskCount)
  }

  /** The open-task figure `taskCount - completedTasks`, which goes negative
      exactly when the counts are inconsistent. */
  function OpenCount(p: CardProject): (n: int)
    ensures n + p.completedTasks == p.taskCount
    ensures n >= 0 <==> p.completedTasks <= p.taskCount
  {
    p.taskCount - p.completedTasks
  }

  /** The two figures agree: no open tasks on a non-empty project reads
      100%, and anything short of 100% leaves some task open. */
  lemma OpenCountAgreesWithProgress(p: CardProject)
    requires p.completedTasks <= p.taskCount
    ensures OpenCount(p) == 0 && p.taskCount > 0 ==> ProgressPercentage(p) == 100
    ensures ProgressPercentage(p) < 100 && p.taskCount > 0 ==> OpenCount(p) > 0
    ensures OpenCount(p) == p.taskCount ==> ProgressPercentage(p) == 0
  {
    PercentBounds(p.completedTasks, p.taskCount);
  }
}
