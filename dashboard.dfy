/**
 * The dashboard summary: how many tasks are completed, in progress and overdue,
 * each counted by exact status match.
 */
module Dashboard {
  import ProjectBoards

  datatype SummaryTask = SummaryTask(id: int, title: string, description: string, dueDate: string, status: string)

  /** The number of tasks whose status is exactly `status`. */
  function CountWithStatus(tasks: seq<SummaryTask>, status: string): (n: nat)
    ensures n <= |tasks|
    ensures n == 0 <==> forall k :: 0 <= k < |tasks| ==> tasks[k].status != status
    ensures n == |tasks| <==> forall k :: 0 <= k < |tasks| ==> tasks[k].status == status
  {
    if tasks == [] then 0
    else
      assert forall k :: 1 <= k < |tasks| ==> tasks[k] == tasks[1..][k - 1];
      (if tasks[0].status == status then 1 else 0) + CountWithStatus(tasks[1..], status)
  }

  /** The dashboard's completed count. */
  function CompletedCount(tasks: seq<SummaryTask>): (n: nat)
    ensures n <= |tasks|
    ensures n == 0 <==> forall k :: 0 <= k < |tasks| ==> tasks[k].status != "Completed"
    ensures n == |tasks| <==> forall k :: 0 <= k < |tasks| ==> tasks[k].status == "Completed"
  {
    CountWithStatus(tasks, "Completed")
  }

  /** The dashboard's in progress count. */
  function InProgressCount(tasks: seq<SummaryTask>): (n: nat)
    ensures n <= |tasks|
    ensures n == 0 <==> forall k :: 0 <= k < |tasks| ==> tasks[k].status != "In Progress"
    ensures n == |tasks| <==> forall k :: 0 <= k < |tasks| ==> tasks[k].status == "In Progress"
  {
    CountWithStatus(tasks, "In Progress")
  }

  /** The dashboard's overdue count. */
  function OverdueCount(tasks: seq<SummaryTask>): (n: nat)
    ensures n <= |tasks|
    ensures n == 0 <==> forall k :: 0 <= k < |tasks| ==> tasks[k].status != "Overdue"
    ensures n == |tasks| <==> forall k :: 0 <= k < |tasks| ==> tasks[k].status == "Overdue"
  {
    CountWithStatus(tasks, "Overdue")
  }

  /** Counting over a concatenation adds the counts of the parts. */
  lemma {:induction false} CountConcat(a: seq<SummaryTask>, b: seq<SummaryTask>, status: string)
    ensures CountWithStatus(a + b, status) == CountWithStatus(a, status) + CountWithStatus(b, status)
  {
    if a == [] {
      assert a + b == b;
    } else {
      assert (a + b)[1..] == a[1..] + b;
      CountConcat(a[1..], b, status);
    }
  }

  /**
   * No task is counted twice: the three summary counts, together with the
   * tasks still pending or to do, never exceed the number of tasks.
   */
  lemma {:induction false} SummaryBounded(tasks: seq<SummaryTask>)
    ensures CompletedCount(tasks) + InProgressCount(tasks) + OverdueCount(tasks)
            + CountWithStatus(tasks, "Pending") + CountWithStatus(tasks, "To Do") <= |tasks|
  {
    if tasks != [] {
      SummaryBounded(tasks[1..]);
    }
  }

  /** A task that is pending or still to do leaves all three summary counts as they were. */
  lemma UncountedStatusAddsNothing(tasks: seq<SummaryTask>, t: SummaryTask)
    requires t.status == "Pending" || t.status == "To Do"
    ensures CompletedCount(tasks + [t]) == CompletedCount(tasks)
    ensures InProgressCount(tasks + [t]) == InProgressCount(tasks)
    ensures OverdueCount(tasks + [t]) == OverdueCount(tasks)
  {
    CountConcat(tasks, [t], "Completed");
    CountConcat(tasks, [t], "In Progress");
    CountConcat(tasks, [t], "Overdue");
  }

  /**
   * The dashboard's completed card and a project's completed count agree on
   * task lists whose statuses agree position by position.
   */
  lemma {:induction false} CompletedAgreesWithProjectBoard(tasks: seq<SummaryTask>, projectTasks: seq<ProjectBoards.ProjectTask>)
    requires |tasks| == |projectTasks|
    requires forall k :: 0 <= k < |tasks| ==> tasks[k].status == projectTasks[k].status
    ensures CompletedCount(tasks) == ProjectBoards.CompletedCount(projectTasks)
  {
    if tasks != [] {
      CompletedAgreesWithProjectBoard(tasks[1..], projectTasks[1..]);
    }
  }
}
