/**
 * The project board page: adding projects and tasks with blank-input guards,
 * assigning users without duplicates, and the per-project progress and category badge.
 */
module ProjectBoards {
  import opened Wrappers
  import opened Text

  datatype ProjectTask = ProjectTask(id: int, title: string, status: string)

  datatype Project = Project(
    id: int,
    name: string,
    tasks: seq<ProjectTask>,
    assignedUsers: seq<string>,
    category: string)

  /** The keys of `projectCategories`, in declaration order. */
  const CategoryKeys: seq<string> := ["WORK", "PERSONAL", "STUDY", "URGENT"]

  /** The first declared category key, which a new project form starts with. */
  const DefaultCategory := "WORK"

  const FallbackClasses := "bg-gray-100 text-gray-700 border border-gray-300"

  datatype CategoryDetails = CategoryDetails(name: string, classes: string)

  /** The badge for a category key: the declared entry, or the raw key with gray classes when the key is not declared. */
  function CategoryFor(key: string): (d: CategoryDetails)
    ensures key !in CategoryKeys ==> d == CategoryDetails(key, FallbackClasses)
    ensures key in CategoryKeys ==> d.classes != FallbackClasses && d.name != key
    ensures key == "WORK" ==> d.name == "Work"
    ensures key == "PERSONAL" ==> d.name == "Personal"
    ensures key == "STUDY" ==> d.name == "Study"
    ensures key == "URGENT" ==> d.name == "Urgent"
  {
    match key
    case "WORK" => CategoryDetails("Work", "bg-blue-100 text-blue-700 border border-blue-300")
    case "PERSONAL" => CategoryDetails("Personal", "bg-green-100 text-green-700 border border-green-300")
    case "STUDY" => CategoryDetails("Study", "bg-yellow-100 text-yellow-700 border border-yellow-300")
    case "URGENT" => CategoryDetails("Urgent", "bg-red-100 text-red-700 border border-red-300")
    case _ => CategoryDetails(key, FallbackClasses)
  }

  /** The number of a project's tasks whose status is exactly `Completed`. */
  function CompletedCount(tasks: seq<ProjectTask>): (n: nat)
    ensures n <= |tasks|
    ensures n == |tasks| <==> forall k :: 0 <= k < |tasks| ==> tasks[k].status == "Completed"
    ensures n == 0 <==> forall k :: 0 <= k < |tasks| ==> tasks[k].status != "Completed"
  {
    if tasks == [] then 0
    else
      var rest := CompletedCount(tasks[1..]);
      assert forall k :: 1 <= k < |tasks| ==> tasks[k] == tasks[1..][k - 1];
      (if tasks[0].status == "Completed" then 1 else 0) + rest
  }

  /** The progress bar's percentage, before `Math.round`. */
  function ProgressPercentage(tasks: seq<ProjectTask>): (p: real)
    ensures 0.0 <= p <= 100.0
    ensures tasks == [] ==> p == 0.0
    ensures p == 100.0 <==> tasks != [] && CompletedCount(tasks) == |tasks|
    ensures tasks != [] ==> ScalesTo(p, CompletedCount(tasks), |tasks|)
  {
    if tasks == [] then 0.0 else Percent(CompletedCount(tasks), |tasks|)
  }

  /** `p` percent of `total` tasks is `completed` tasks. */
  predicate ScalesTo(p: real, completed: nat, total: nat) {
    p * (total as real) == (completed as real) * 100.0
  }

  /** `(completed / total) * 100`: within [0, 100], scaling back to `completed`, and 100 only for the whole. */
  function Percent(completed: nat, total: nat): (p: real)
    requires completed <= total && total > 0
    ensures 0.0 <= p <= 100.0
    ensures ScalesTo(p, completed, total)
    ensures p == 100.0 <==> completed == total
  {
    var part := completed as real;
    var whole := total as real;
    RatioAtMostOne(part, whole);
    var q := part / whole;
    assert q * whole == part;
    assert (q * 100.0) * whole == (q * whole) * 100.0;
    q * 100.0
  }

  lemma RatioAtMostOne(part: real, whole: real)
    requires 0.0 <= part <= whole && whole > 0.0
    ensures 0.0 <= part / whole <= 1.0
    ensures part / whole == 1.0 <==> part == whole
  {
    var q := part / whole;
    assert q * whole == part;
    if q == 1.0 {
      assert part == 1.0 * whole;
    }
    if part == whole {
      assert q * whole == 1.0 * whole;
      assert (q - 1.0) * whole == 0.0;
    }
  }

  /** Project ids are distinct and no project lists a user twice. */
  ghost predicate WellFormed(projects: seq<Project>) {
    && (forall i, j :: 0 <= i < j < |projects| ==> projects[i].id != projects[j].id)
    && (forall i :: 0 <= i < |projects| ==> NoDuplicates(projects[i].assignedUsers))
  }

  predicate NoDuplicates(s: seq<string>) {
    forall i, j :: 0 <= i < j < |s| ==> s[i] != s[j]
  }

  /** The project with `id` gets `user` appended unless it already lists it. */
  function AssignTo(projects: seq<Project>, id: int, user: string): (r: seq<Project>)
    ensures |r| == |projects|
    ensures forall k :: 0 <= k < |projects| && projects[k].id == id && user !in projects[k].assignedUsers ==>
              r[k] == projects[k].(assignedUsers := projects[k].assignedUsers + [user])
    ensures forall k :: 0 <= k < |projects| && (projects[k].id != id || user in projects[k].assignedUsers) ==>
              r[k] == projects[k]
  {
    seq(|projects|, k requires 0 <= k < |projects| =>
      var p := projects[k];
      if p.id == id && user !in p.assignedUsers then p.(assignedUsers := p.assignedUsers + [user]) else p)
  }

  /** Appending a user that is not yet listed keeps the list duplicate-free. */
  lemma AppendFreshKeepsNoDuplicates(s: seq<string>, user: string)
    requires NoDuplicates(s) && user !in s
    ensures NoDuplicates(s + [user])
  {
  }

  /** Assignment keeps the board well formed. */
  lemma AssignKeepsWellFormed(projects: seq<Project>, id: int, user: string)
    requires WellFormed(projects)
    ensures WellFormed(AssignTo(projects, id, user))
  {
    var r := AssignTo(projects, id, user);
    forall i | 0 <= i < |r| ensures NoDuplicates(r[i].assignedUsers) {
      if projects[i].id == id && user !in projects[i].assignedUsers {
        AppendFreshKeepsNoDuplicates(projects[i].assignedUsers, user);
      }
    }
  }

  /** Assigning the same user twice is the same as assigning once. */
  lemma AssignIdempotent(projects: seq<Project>, id: int, user: string)
    ensures AssignTo(AssignTo(projects, id, user), id, user) == AssignTo(projects, id, user)
  {
    var once := AssignTo(projects, id, user);
    forall k | 0 <= k < |projects| ensures AssignTo(once, id, user)[k] == once[k] {
      if projects[k].id == id && user !in projects[k].assignedUsers {
        assert user in once[k].assignedUsers by {
          assert once[k].assignedUsers[|once[k].assignedUsers| - 1] == user;
        }
      }
    }
  }

  /** The project with `id` gets the task appended. */
  function AddTaskTo(projects: seq<Project>, id: int, task: ProjectTask): (r: seq<Project>)
    ensures |r| == |projects|
    ensures forall k :: 0 <= k < |projects| && projects[k].id == id ==> r[k] == projects[k].(tasks := projects[k].tasks + [task])
    ensures forall k :: 0 <= k < |projects| && projects[k].id != id ==> r[k] == projects[k]
  {
    seq(|projects|, k requires 0 <= k < |projects| =>
      if projects[k].id == id then projects[k].(tasks := projects[k].tasks + [task]) else projects[k])
  }

  datatype Outcome = Done | Rejected(message: string)

  class ProjectBoard {
    var projects: seq<Project>
    var newProjectName: string
    var newProjectCategory: string
    var newTaskInputs: map<int, string>
    var selectedUserForProject: map<int, string>

    ghost predicate Valid()
      reads this
    {
      WellFormed(projects)
    }

    constructor (initial: seq<Project>)
      requires WellFormed(initial)
      ensures Valid() && projects == initial
      ensures newProjectName == "" && newProjectCategory == DefaultCategory
      ensures newTaskInputs == map[] && selectedUserForProject == map[]
    {
      projects := initial;
      newProjectName := "";
      newProjectCategory := DefaultCategory;
      newTaskInputs := map[];
      selectedUserForProject := map[];
    }

    method ProjectInputChange(value: string)
      modifies this`newProjectName
      ensures newProjectName == value
    {
      newProjectName := value;
    }

    method ProjectCategoryChange(value: string)
      modifies this`newProjectCategory
      ensures newProjectCategory == value
    {
      newProjectCategory := value;
    }

    method TaskInputChange(projectId: int, value: string)
      modifies this`newTaskInputs
      ensures newTaskInputs == old(newTaskInputs)[projectId := value]
    {
      newTaskInputs := newTaskInputs[projectId := value];
    }

    method UserSelectionChange(projectId: int, userId: string)
      modifies this`selectedUserForProject
      ensures selectedUserForProject == old(selectedUserForProject)[projectId := userId]
    {
      selectedUserForProject := selectedUserForProject[projectId := userId];
    }

    /** `handleAddProject`; `freshId` stands for `Date.now()`. */
    method AddProject(freshId: int) returns (outcome: Outcome)
      requires Valid()
      requires forall k :: 0 <= k < |projects| ==> projects[k].id != freshId
      modifies this`projects, this`newProjectName, this`newProjectCategory
      ensures Valid()
      ensures outcome.Rejected? <==> Trim(old(newProjectName)) == ""
      ensures outcome.Rejected? ==> projects == old(projects) && newProjectName == old(newProjectName)
                                    && newProjectCategory == old(newProjectCategory)
      ensures outcome.Done? ==>
                && projects == old(projects) + [Project(freshId, Trim(old(newProjectName)), [], [], old(newProjectCategory))]
                && newProjectName == "" && newProjectCategory == DefaultCategory
    {
      if Trim(newProjectName) == "" {
        return Rejected("Project name cannot be empty.");
      }
      var newProject := Project(freshId, Trim(newProjectName), [], [], newProjectCategory);
      projects := projects + [newProject];
      newProjectName := "";
      newProjectCategory := DefaultCategory;
      outcome := Done;
    }

    /** `handleAddTask`; `freshTaskId` stands for `Date.now() + Math.random()`. */
    method AddTask(projectId: int, freshTaskId: int) returns (outcome: Outcome)
      requires Valid()
      modifies this`projects, this`newTaskInputs
      ensures Valid()
      ensures var input := if projectId in old(newTaskInputs) then old(newTaskInputs)[projectId] else "";
              && (outcome.Rejected? <==> Trim(input) == "")
              && (outcome.Rejected? ==> projects == old(projects) && newTaskInputs == old(newTaskInputs))
              && (outcome.Done? ==>
                    && projects == AddTaskTo(old(projects), projectId, ProjectTask(freshTaskId, Trim(input), "To Do"))
                    && newTaskInputs == old(newTaskInputs)[projectId := ""])
    {
      var taskTitle := Trim(if projectId in newTaskInputs then newTaskInputs[projectId] else "");
      if taskTitle == "" {
        return Rejected("Task title cannot be empty.");
      }
      var newTask := ProjectTask(freshTaskId, taskTitle, "To Do");
      projects := AddTaskTo(projects, projectId, newTask);
      newTaskInputs := newTaskInputs[projectId := ""];
      outcome := Done;
    }

    /** `handleAssignUserToProject` */
    method AssignUser(projectId: int) returns (outcome: Outcome)
      requires Valid()
      modifies this`projects, this`selectedUserForProject
      ensures Valid()
      ensures var user := if projectId in old(selectedUserForProject) then old(selectedUserForProject)[projectId] else "";
              && (outcome.Rejected? <==> user == "")
              && (outcome.Rejected? ==> projects == old(projects) && selectedUserForProject == old(selectedUserForProject))
              && (outcome.Done? ==>
                    && projects == AssignTo(old(projects), projectId, user)
                    && selectedUserForProject == old(selectedUserForProject)[projectId := ""])
    {
      var userIdToAssign := if projectId in selectedUserForProject then selectedUserForProject[projectId] else "";
      if userIdToAssign == "" {
        return Rejected("Please select a user to assign.");
      }
      AssignKeepsWellFormed(projects, projectId, userIdToAssign);
      projects := AssignTo(projects, projectId, userIdToAssign);
      selectedUserForProject := selectedUserForProject[projectId := ""];
      outcome := Done;
    }
  }
}
