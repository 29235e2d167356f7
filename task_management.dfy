/**
 * The task list page: a five-criterion filter over the task store, the kanban
 * partition of the filtered list into three status columns, and the drag-and-drop
 * handlers that move a task to another column.
 */
module TaskManagement {
  import opened Wrappers
  import opened Text

  datatype Assignee = Assignee(name: Option<string>, avatarUrl: Option<string>)

  datatype Task = Task(
    id: int,
    title: string,
    description: Option<string>,
    project: string,
    status: string,
    priority: string,
    dueDate: string,
    category: string,
    assignee: Option<Assignee>)

  /** The `filters` state: three selectors, a due date and a free-text search term. */
  datatype Filters = Filters(project: string, status: string, priority: string, dueDate: string, searchTerm: string)

  /** The initial filters, and what `clearFilters` restores. */
  const DefaultFilters := Filters("All", "All", "All", "", "")

  /** The `name` attribute of the input that fired `handleFilterChange`. */
  datatype FilterField = ProjectField | StatusField | PriorityField | DueDateField | SearchTermField

  function FieldValue(f: Filters, name: FilterField): string {
    match name
    case ProjectField => f.project
    case StatusField => f.status
    case PriorityField => f.priority
    case DueDateField => f.dueDate
    case SearchTermField => f.searchTerm
  }

  /** The filters with the named criterion set to `value` and the others kept. */
  function WithField(f: Filters, name: FilterField, value: string): (g: Filters)
    ensures FieldValue(g, name) == value
    ensures forall other :: other != name ==> FieldValue(g, other) == FieldValue(f, other)
  {
    match name
    case ProjectField => f.(project := value)
    case StatusField => f.(status := value)
    case PriorityField => f.(priority := value)
    case DueDateField => f.(dueDate := value)
    case SearchTermField => f.(searchTerm := value)
  }

  /** One filter pass of the effect. */
  datatype Criterion =
    | ProjectIs(project: string)
    | SearchFor(term: string)
    | StatusIs(status: string)
    | PriorityIs(priority: string)
    | DueOn(date: string)

  /** Case-insensitive substring match against the title, or against a present description. */
  predicate SearchMatches(t: Task, term: string) {
    var q := ToLower(term);
    || Contains(ToLower(t.title), q)
    || (t.description.Some? && t.description.value != "" && Contains(ToLower(t.description.value), q))
  }

  predicate Satisfies(t: Task, c: Criterion) {
    match c
    case ProjectIs(p) => t.project == p
    case SearchFor(term) => SearchMatches(t, term)
    case StatusIs(s) => t.status == s
    case PriorityIs(p) => t.priority == p
    case DueOn(d) => t.dueDate == d
  }

  /** A selector is active when it is truthy and not `'All'`. */
  predicate IsSelected(v: string) {
    v != "" && v != "All"
  }

  /** The passes the effect runs, in the order it runs them. */
  function ActiveCriteria(f: Filters): seq<Criterion> {
    Pass(IsSelected(f.project), ProjectIs(f.project))
    + Pass(f.searchTerm != "", SearchFor(f.searchTerm))
    + Pass(IsSelected(f.status), StatusIs(f.status))
    + Pass(IsSelected(f.priority), PriorityIs(f.priority))
    + Pass(f.dueDate != "", DueOn(f.dueDate))
  }

  /** The pass for `c`, run only when its guard holds. */
  function Pass(active: bool, c: Criterion): seq<Criterion> {
    if active then [c] else []
  }

  /** The criteria, field by field, that a task must meet to be listed. */
  predicate Matches(f: Filters, t: Task) {
    && (IsSelected(f.project) ==> t.project == f.project)
    && (f.searchTerm != "" ==> SearchMatches(t, f.searchTerm))
    && (IsSelected(f.status) ==> t.status == f.status)
    && (IsSelected(f.priority) ==> t.priority == f.priority)
    && (f.dueDate != "" ==> t.dueDate == f.dueDate)
  }

  /** The tasks meeting criterion `c`, in their order. */
  function Keep(s: seq<Task>, c: Criterion): seq<Task> {
    if s == [] then []
    else (if Satisfies(s[0], c) then [s[0]] else []) + Keep(s[1..], c)
  }

  predicate SatisfiesAll(t: Task, cs: seq<Criterion>) {
    forall c :: c in cs ==> Satisfies(t, c)
  }

  /** One pass that keeps the tasks meeting every criterion in `cs`. */
  function SelectAll(s: seq<Task>, cs: seq<Criterion>): seq<Task> {
    if s == [] then []
    else (if SatisfiesAll(s[0], cs) then [s[0]] else []) + SelectAll(s[1..], cs)
  }

  /** The specification of `filteredTasks`. */
  function Visible(tasks: seq<Task>, f: Filters): seq<Task> {
    SelectAll(tasks, ActiveCriteria(f))
  }

  /** `a` is `b` with some elements left out and the rest in their order. */
  predicate IsSubsequence(a: seq<Task>, b: seq<Task>) {
    if a == [] then true
    else if b == [] then false
    else if a[0] == b[0] then IsSubsequence(a[1..], b[1..])
    else IsSubsequence(a, b[1..])
  }

  lemma {:induction false} SelectNothing(s: seq<Task>)
    ensures SelectAll(s, []) == s
  {
    if s != [] {
      SelectNothing(s[1..]);
      assert s == [s[0]] + s[1..];
    }
  }

  /** A further filter pass after a one-pass selection adds its criterion to the selection. */
  lemma {:induction false} KeepAfterSelect(s: seq<Task>, cs: seq<Criterion>, c: Criterion)
    ensures Keep(SelectAll(s, cs), c) == SelectAll(s, cs + [c])
  {
    if s != [] {
      KeepAfterSelect(s[1..], cs, c);
      var t := s[0];
      assert SatisfiesAll(t, cs + [c]) <==> SatisfiesAll(t, cs) && Satisfies(t, c);
      var rest := SelectAll(s[1..], cs);
      if SatisfiesAll(t, cs) {
        assert SelectAll(s, cs) == [t] + rest;
        assert ([t] + rest)[1..] == rest;
      } else {
        assert SelectAll(s, cs) == rest;
      }
    }
  }

  /** The selection depends on the set of criteria only, not on their order or repetition. */
  lemma {:induction false} SelectSameCriteria(s: seq<Task>, cs1: seq<Criterion>, cs2: seq<Criterion>)
    requires forall c :: c in cs1 <==> c in cs2
    ensures SelectAll(s, cs1) == SelectAll(s, cs2)
  {
    if s != [] {
      SelectSameCriteria(s[1..], cs1, cs2);
      assert SatisfiesAll(s[0], cs1) == SatisfiesAll(s[0], cs2);
    }
  }

  lemma {:induction false} SelectMember(s: seq<Task>, cs: seq<Criterion>, t: Task)
    ensures t in SelectAll(s, cs) <==> t in s && SatisfiesAll(t, cs)
  {
    if s != [] {
      SelectMember(s[1..], cs, t);
      assert s == [s[0]] + s[1..];
    }
  }

  lemma {:induction false} SelectIsSubsequence(s: seq<Task>, cs: seq<Criterion>)
    ensures IsSubsequence(SelectAll(s, cs), s)
  {
    if s != [] {
      SelectIsSubsequence(s[1..], cs);
      var rest := SelectAll(s[1..], cs);
      if SatisfiesAll(s[0], cs) {
        assert SelectAll(s, cs) == [s[0]] + rest;
        assert ([s[0]] + rest)[1..] == rest;
      } else {
        assert SelectAll(s, cs) == rest;
        SubsequenceSkip(rest, s);
      }
    }
  }

  lemma {:induction false} SubsequenceSkip(a: seq<Task>, b: seq<Task>)
    requires b != [] && IsSubsequence(a, b[1..])
    ensures IsSubsequence(a, b)
    decreases |b|, 1
  {
    if a != [] && a[0] == b[0] {
      SubsequenceFromTail(a, b[1..]);
    }
  }

  lemma {:induction false} SubsequenceFromTail(a: seq<Task>, b: seq<Task>)
    requires a != [] && IsSubsequence(a, b)
    ensures IsSubsequence(a[1..], b)
    decreases |b| + 1, 0
  {
    if a[0] == b[0] {
      SubsequenceSkip(a[1..], b);
    } else {
      SubsequenceFromTail(a, b[1..]);
      SubsequenceSkip(a[1..], b);
    }
  }

  lemma SatisfiesAllConcat(t: Task, a: seq<Criterion>, b: seq<Criterion>)
    ensures SatisfiesAll(t, a + b) <==> SatisfiesAll(t, a) && SatisfiesAll(t, b)
  {
    if SatisfiesAll(t, a) && SatisfiesAll(t, b) {
      forall c | c in a + b ensures Satisfies(t, c) { }
    }
  }

  lemma SatisfiesPass(t: Task, active: bool, c: Criterion)
    ensures SatisfiesAll(t, Pass(active, c)) <==> (active ==> Satisfies(t, c))
  {
    if active {
      assert c in Pass(active, c);
    }
  }

  lemma SatisfiesActiveIff(f: Filters, t: Task)
    ensures SatisfiesAll(t, ActiveCriteria(f)) <==> Matches(f, t)
  {
    var p1 := Pass(IsSelected(f.project), ProjectIs(f.project));
    var p2 := Pass(f.searchTerm != "", SearchFor(f.searchTerm));
    var p3 := Pass(IsSelected(f.status), StatusIs(f.status));
    var p4 := Pass(IsSelected(f.priority), PriorityIs(f.priority));
    var p5 := Pass(f.dueDate != "", DueOn(f.dueDate));
    SatisfiesAllConcat(t, p1, p2);
    SatisfiesAllConcat(t, p1 + p2, p3);
    SatisfiesAllConcat(t, p1 + p2 + p3, p4);
    SatisfiesAllConcat(t, p1 + p2 + p3 + p4, p5);
    SatisfiesPass(t, IsSelected(f.project), ProjectIs(f.project));
    SatisfiesPass(t, f.searchTerm != "", SearchFor(f.searchTerm));
    SatisfiesPass(t, IsSelected(f.status), StatusIs(f.status));
    SatisfiesPass(t, IsSelected(f.priority), PriorityIs(f.priority));
    SatisfiesPass(t, f.dueDate != "", DueOn(f.dueDate));
  }

  /** A task is listed iff it is in the store and meets every active criterion. */
  lemma VisibleIff(tasks: seq<Task>, f: Filters, t: Task)
    ensures t in Visible(tasks, f) <==> t in tasks && Matches(f, t)
  {
    SelectMember(tasks, ActiveCriteria(f), t);
    SatisfiesActiveIff(f, t);
  }

  /** The listed tasks keep the store's order. */
  lemma VisibleIsSubsequence(tasks: seq<Task>, f: Filters)
    ensures IsSubsequence(Visible(tasks, f), tasks)
  {
    SelectIsSubsequence(tasks, ActiveCriteria(f));
  }

  /** Filtering an already filtered list with the same criteria changes nothing. */
  lemma {:induction false} VisibleIdempotent(tasks: seq<Task>, f: Filters)
    ensures Visible(Visible(tasks, f), f) == Visible(tasks, f)
  {
    SelectTwice(tasks, ActiveCriteria(f));
  }

  lemma {:induction false} SelectTwice(s: seq<Task>, cs: seq<Criterion>)
    ensures SelectAll(SelectAll(s, cs), cs) == SelectAll(s, cs)
  {
    if s != [] {
      SelectTwice(s[1..], cs);
      var rest := SelectAll(s[1..], cs);
      if SatisfiesAll(s[0], cs) {
        assert SelectAll(s, cs) == [s[0]] + rest;
        assert ([s[0]] + rest)[1..] == rest;
        assert SelectAll([s[0]] + rest, cs) == [s[0]] + SelectAll(rest, cs);
      } else {
        assert SelectAll(s, cs) == rest;
      }
    }
  }

  /** With the default criteria nothing is filtered out. */
  lemma ClearedShowsAll(tasks: seq<Task>)
    ensures Visible(tasks, DefaultFilters) == tasks
  {
    assert ActiveCriteria(DefaultFilters) == [];
    SelectNothing(tasks);
  }

  /** A task without a description is still found by its title. */
  lemma SearchByTitleOnly(t: Task, term: string)
    requires t.description.None?
    ensures SearchMatches(t, term) <==> exists i :: OccursAt(ToLower(t.title), ToLower(term), i)
  {
    ContainsIff(ToLower(t.title), ToLower(term));
  }

  /** The search ignores ASCII case on both sides. */
  lemma SearchIgnoresCase(t: Task, term1: string, term2: string)
    requires EqualsIgnoringCase(term1, term2)
    ensures SearchMatches(t, term1) == SearchMatches(t, term2)
  {
    ToLowerEqualIff(term1, term2);
  }

  /** The filter passes run in any order give the same list. */
  function RunPasses(s: seq<Task>, cs: seq<Criterion>): seq<Task>
    decreases |cs|
  {
    if cs == [] then s else RunPasses(Keep(s, cs[0]), cs[1..])
  }

  lemma {:induction false} RunPassesAfterSelect(s: seq<Task>, pre: seq<Criterion>, cs: seq<Criterion>)
    ensures RunPasses(SelectAll(s, pre), cs) == SelectAll(s, pre + cs)
    decreases |cs|
  {
    if cs == [] {
      assert pre + cs == pre;
    } else {
      KeepAfterSelect(s, pre, cs[0]);
      RunPassesAfterSelect(s, pre + [cs[0]], cs[1..]);
      assert pre + [cs[0]] + cs[1..] == pre + cs;
    }
  }

  lemma PassOrderIrrelevant(s: seq<Task>, cs1: seq<Criterion>, cs2: seq<Criterion>)
    requires forall c :: c in cs1 <==> c in cs2
    ensures RunPasses(s, cs1) == RunPasses(s, cs2)
  {
    SelectNothing(s);
    RunPassesAfterSelect(s, [], cs1);
    RunPassesAfterSelect(s, [], cs2);
    assert [] + cs1 == cs1 && [] + cs2 == cs2;
    SelectSameCriteria(s, cs1, cs2);
  }

  // ---------------------------------------------------------------- kanban

  /** The column ids of the kanban board, in display order. */
  const KanbanColumns: seq<string> := ["To Do", "In Progress", "Completed"]

  /** A kanban column's tasks: the filtered tasks whose status is the column id, in their order. */
  function ColumnTasks(filtered: seq<Task>, columnId: string): seq<Task> {
    Keep(filtered, StatusIs(columnId))
  }

  function Board(filtered: seq<Task>): (board: seq<seq<Task>>)
    ensures |board| == |KanbanColumns|
  {
    seq(|KanbanColumns|, i requires 0 <= i < |KanbanColumns| => ColumnTasks(filtered, KanbanColumns[i]))
  }

  /** The filtered tasks whose status names a column. */
  function OnBoard(filtered: seq<Task>): seq<Task> {
    if filtered == [] then []
    else (if filtered[0].status in KanbanColumns then [filtered[0]] else []) + OnBoard(filtered[1..])
  }

  lemma {:induction false} KeepIsSelect(s: seq<Task>, c: Criterion)
    ensures Keep(s, c) == SelectAll(s, [c])
  {
    SelectNothing(s);
    KeepAfterSelect(s, [], c);
    assert [] + [c] == [c];
  }

  /** Each column holds exactly the filtered tasks with its status, in filtered order. */
  lemma ColumnIff(filtered: seq<Task>, i: int, t: Task)
    requires 0 <= i < |KanbanColumns|
    ensures t in Board(filtered)[i] <==> t in filtered && t.status == KanbanColumns[i]
    ensures IsSubsequence(Board(filtered)[i], filtered)
  {
    KeepIsSelect(filtered, StatusIs(KanbanColumns[i]));
    SelectMember(filtered, [StatusIs(KanbanColumns[i])], t);
    SelectIsSubsequence(filtered, [StatusIs(KanbanColumns[i])]);
  }

  /** No task is in two columns. */
  lemma ColumnsDisjoint(filtered: seq<Task>, i: int, j: int, t: Task)
    requires 0 <= i < |KanbanColumns| && 0 <= j < |KanbanColumns| && i != j
    ensures !(t in Board(filtered)[i] && t in Board(filtered)[j])
  {
    ColumnIff(filtered, i, t);
    ColumnIff(filtered, j, t);
  }

  /** A task whose status is not a column id (such as "Overdue") is in no column. */
  lemma OffBoardTask(filtered: seq<Task>, t: Task)
    requires t.status !in KanbanColumns
    ensures forall i :: 0 <= i < |KanbanColumns| ==> t !in Board(filtered)[i]
  {
    forall i | 0 <= i < |KanbanColumns| ensures t !in Board(filtered)[i] {
      ColumnIff(filtered, i, t);
    }
  }

  /** Together the columns hold every filtered task with a column status exactly once. */
  lemma {:induction false} ColumnsCoverBoard(filtered: seq<Task>)
    ensures multiset(ColumnTasks(filtered, "To Do")) + multiset(ColumnTasks(filtered, "In Progress"))
            + multiset(ColumnTasks(filtered, "Completed")) == multiset(OnBoard(filtered))
  {
    if filtered != [] {
      var t := filtered[0];
      ColumnsCoverBoard(filtered[1..]);
      ColumnStep(filtered, "To Do");
      ColumnStep(filtered, "In Progress");
      ColumnStep(filtered, "Completed");
      OnBoardStep(filtered);
      StatusCases(t.status);
    }
  }

  /** The first task is on the board exactly when its status is one of the column ids. */
  lemma OnBoardStep(filtered: seq<Task>)
    requires filtered != []
    ensures multiset(OnBoard(filtered))
            == (if filtered[0].status in KanbanColumns then multiset{filtered[0]} else multiset{})
               + multiset(OnBoard(filtered[1..]))
  {
  }

  /** A status is a column id exactly when it equals one of the three, and it equals at most one. */
  lemma StatusCases(status: string)
    ensures status in KanbanColumns <==> status == "To Do" || status == "In Progress" || status == "Completed"
    ensures status == "To Do" ==> status != "In Progress" && status != "Completed"
    ensures status == "In Progress" ==> status != "Completed"
  {
  }

  /** The first task goes to the front of its column's list, if it has that status. */
  lemma ColumnStep(filtered: seq<Task>, columnId: string)
    requires filtered != []
    ensures multiset(ColumnTasks(filtered, columnId))
            == (if filtered[0].status == columnId then multiset{filtered[0]} else multiset{})
               + multiset(ColumnTasks(filtered[1..], columnId))
  {
    assert ColumnTasks(filtered, columnId)
        == (if filtered[0].status == columnId then [filtered[0]] else []) + ColumnTasks(filtered[1..], columnId);
  }

  // ---------------------------------------------------------------- drag and drop

  /** `over.id`: the id of a column or of the task dropped on. */
  datatype OverId = ColumnKey(name: string) | TaskKey(taskId: int)

  /** The drop target: its id and the id of the sortable container it sits in, if any. */
  datatype DropTarget = DropTarget(id: OverId, containerId: Option<string>)

  /** `targetColumnId`: the target itself when it is a column, otherwise its container; None when falsy. */
  function ResolveColumn(over: DropTarget): (r: Option<string>)
    ensures r.Some? ==> r.value != ""
    ensures over.id.ColumnKey? && over.id.name in KanbanColumns ==> r == Some(over.id.name)
    ensures r.None? <==> !(over.id.ColumnKey? && over.id.name in KanbanColumns)
                         && (over.containerId.None? || over.containerId.value == "")
    ensures !(over.id.ColumnKey? && over.id.name in KanbanColumns) && r.Some? ==> r == over.containerId
  {
    if over.id.ColumnKey? && over.id.name in KanbanColumns then Some(over.id.name)
    else if over.containerId.Some? && over.containerId.value != "" then over.containerId
    else None
  }

  /** The first task with the id, if any. */
  function FindTask(tasks: seq<Task>, id: int): (r: Option<Task>)
    ensures r.None? <==> forall k :: 0 <= k < |tasks| ==> tasks[k].id != id
    ensures r.Some? ==> exists k :: 0 <= k < |tasks| && tasks[k] == r.value && r.value.id == id
                                    && forall j :: 0 <= j < k ==> tasks[j].id != id
  {
    if tasks == [] then None
    else if tasks[0].id == id then Some(tasks[0])
    else
      var r := FindTask(tasks[1..], id);
      assert r.Some? ==> exists k :: 0 <= k < |tasks| - 1 && tasks[1..][k] == r.value && r.value.id == id
                                    && forall j :: 0 <= j < k ==> tasks[1..][j].id != id;
      assert r.Some? ==> exists k :: 1 <= k < |tasks| && tasks[k] == r.value && r.value.id == id
                                    && forall j :: 0 <= j < k ==> tasks[j].id != id;
      r
  }

  /** Every task with the id gets the new status; all else is kept. */
  function SetStatus(tasks: seq<Task>, id: int, status: string): (r: seq<Task>)
    ensures |r| == |tasks|
    ensures forall k :: 0 <= k < |tasks| && tasks[k].id == id ==> r[k] == tasks[k].(status := status)
    ensures forall k :: 0 <= k < |tasks| && tasks[k].id != id ==> r[k] == tasks[k]
  {
    seq(|tasks|, k requires 0 <= k < |tasks| => if tasks[k].id == id then tasks[k].(status := status) else tasks[k])
  }

  /** After a move, filtering by the new status lists the moved task. */
  lemma MovedTaskShownUnderNewStatus(tasks: seq<Task>, id: int, status: string)
    requires IsSelected(status)
    requires exists k :: 0 <= k < |tasks| && tasks[k].id == id
    ensures exists t :: t in Visible(SetStatus(tasks, id, status), DefaultFilters.(status := status)) && t.id == id
  {
    var k :| 0 <= k < |tasks| && tasks[k].id == id;
    var moved := SetStatus(tasks, id, status);
    var t := moved[k];
    VisibleIff(moved, DefaultFilters.(status := status), t);
  }

  /** After a move, filtering by any other status no longer lists a task with that id. */
  lemma MovedTaskHiddenUnderOtherStatus(tasks: seq<Task>, id: int, status: string, other: string)
    requires IsSelected(other) && other != status
    ensures forall t :: t in Visible(SetStatus(tasks, id, status), DefaultFilters.(status := other)) ==> t.id != id
  {
    var moved := SetStatus(tasks, id, status);
    forall t | t in Visible(moved, DefaultFilters.(status := other)) ensures t.id != id {
      VisibleIff(moved, DefaultFilters.(status := other), t);
    }
  }

  /** The page's state and handlers. */
  class TaskBoard {
    var tasks: seq<Task>
    var filters: Filters
    var filteredTasks: seq<Task>
    var activeTask: Option<Task>

    constructor (initialTasks: seq<Task>)
      ensures tasks == initialTasks && filteredTasks == initialTasks
      ensures filters == DefaultFilters && activeTask == None
      ensures filteredTasks == Visible(tasks, filters)
    {
      tasks := initialTasks;
      filteredTasks := initialTasks;
      filters := DefaultFilters;
      activeTask := None;
      new;
      ClearedShowsAll(initialTasks);
    }

    /** The filter effect: copy the store, then narrow it by each active criterion in turn. */
    method RefreshFilteredTasks()
      modifies this`filteredTasks
      ensures filteredTasks == Visible(tasks, filters)
    {
      var currentTasks := tasks;
      SelectNothing(tasks);
      ghost var applied: seq<Criterion> := [];
      currentTasks := NarrowIf(currentTasks, applied, IsSelected(filters.project), ProjectIs(filters.project));
      applied := Pass(IsSelected(filters.project), ProjectIs(filters.project));
      assert currentTasks == SelectAll(tasks, applied) by { assert [] + applied == applied; }
      currentTasks := NarrowIf(currentTasks, applied, filters.searchTerm != "", SearchFor(filters.searchTerm));
      applied := applied + Pass(filters.searchTerm != "", SearchFor(filters.searchTerm));
      currentTasks := NarrowIf(currentTasks, applied, IsSelected(filters.status), StatusIs(filters.status));
      applied := applied + Pass(IsSelected(filters.status), StatusIs(filters.status));
      currentTasks := NarrowIf(currentTasks, applied, IsSelected(filters.priority), PriorityIs(filters.priority));
      applied := applied + Pass(IsSelected(filters.priority), PriorityIs(filters.priority));
      currentTasks := NarrowIf(currentTasks, applied, filters.dueDate != "", DueOn(filters.dueDate));
      applied := applied + Pass(filters.dueDate != "", DueOn(filters.dueDate));
      assert applied == ActiveCriteria(filters);
      filteredTasks := currentTasks;
    }

    /** One guarded pass of the filter effect over its local list. */
    method NarrowIf(currentTasks: seq<Task>, ghost applied: seq<Criterion>, active: bool, c: Criterion)
      returns (next: seq<Task>)
      requires currentTasks == SelectAll(tasks, applied)
      ensures next == if active then Keep(currentTasks, c) else currentTasks
      ensures next == SelectAll(tasks, applied + Pass(active, c))
    {
      if active {
        KeepAfterSelect(tasks, applied, c);
        next := Keep(currentTasks, c);
      } else {
        assert applied + Pass(active, c) == applied;
        next := currentTasks;
      }
    }

    /**
     * Sets the one criterion the input names; the other four keep their values.
     * `filteredTasks` stays as it was until the filter effect runs again.
     */
    method HandleFilterChange(name: FilterField, value: string)
      modifies this`filters
      ensures tasks == old(tasks) && filteredTasks == old(filteredTasks)
      ensures FieldValue(filters, name) == value
      ensures forall other :: other != name ==> FieldValue(filters, other) == FieldValue(old(filters), other)
    {
      filters := WithField(filters, name, value);
    }

    /** Restores the default filters; `filteredTasks` waits for the filter effect. */
    method ClearFilters()
      modifies this`filters
      ensures tasks == old(tasks) && filteredTasks == old(filteredTasks)
      ensures filters == DefaultFilters
      ensures forall t :: Matches(filters, t)
    {
      filters := DefaultFilters;
    }

    method HandleDragStart(activeId: int)
      modifies this`activeTask
      ensures activeTask == FindTask(tasks, activeId)
    {
      activeTask := FindTask(tasks, activeId);
    }

    /**
     * Clears the dragged task and, when the drop resolves to a column other than
     * the dragged task's status, moves every task with that id to the column.
     * `filteredTasks` stays as it was until the filter effect runs again.
     */
    method HandleDragEnd(activeId: int, over: Option<DropTarget>)
      modifies this`activeTask, this`tasks
      ensures activeTask == None
      ensures filters == old(filters) && filteredTasks == old(filteredTasks)
      ensures over.None? ==> tasks == old(tasks)
      ensures over.Some? && ResolveColumn(over.value).None? ==> tasks == old(tasks)
      ensures FindTask(old(tasks), activeId).None? ==> tasks == old(tasks)
      ensures over.Some? && ResolveColumn(over.value).Some? && FindTask(old(tasks), activeId).Some? ==>
                var target := ResolveColumn(over.value).value;
                tasks == if FindTask(old(tasks), activeId).value.status == target then old(tasks)
                         else SetStatus(old(tasks), activeId, target)
    {
      activeTask := None;
      if over.None? {
        return;
      }
      var targetColumnId := ResolveColumn(over.value);
      if targetColumnId.Some? {
        var taskToMove := FindTask(tasks, activeId);
        if taskToMove.Some? && taskToMove.value.status != targetColumnId.value {
          tasks := SetStatus(tasks, activeId, targetColumnId.value);
        }
      }
    }
  }
}
