/** The task list page (`src/app/projects/tasks/page.js`): the completion
    toggle, the status filter and text search over the store's tasks, the
    counts on the filter buttons, and the page state the handlers update. */
module TaskList {
  import opened Js
  import opened Seqs
  import opened Domain
  import opened Host
  import opened Haptic
  import opened Vibration

  /** Line 31 of `handleTaskToggle(taskId, currentStatus)`: the status sent is
      `todo` exactly when `currentStatus === 'done'`, and `done` for any other
      value, `undefined` included. */
  function ToggledStatus(currentStatus: Option<Value>): (r: string)
    ensures r == Todo <==> currentStatus == Some(StringArg(Done))
    ensures r == Done <==> currentStatus != Some(StringArg(Done))
  {
    if currentStatus == Some(StringArg(Done)) then Todo else Done
  }

  /** A task row's check button as written: it calls
      `handleTaskToggleWithVibration(task.id, task.status)`, a `withVibration`
      wrapper, which hands `handleTaskToggle` its first argument only. The
      result is the status that `handleTaskToggle` sends: `currentStatus`
      arrives as `undefined`, so it is `done` whatever the task's status. */
  function ButtonToggle(env: HostEnv, haptic: HapticFeedback, t: Task): (r: string)
    requires haptic.Valid()
    ensures r == Done
  {
    var click := WithVibration(env, haptic, true, Some(Pattern(Toggle)), None, [Some(NumberArg(t.id)), Some(StringArg(t.status))]);
    ToggledStatus(Param(click.onClickCalls[0], 1))
  }

  /** The toggle the page evidently intends: `handleTaskToggle` receiving the
      task's id and status, so a done task reopens and any other completes. */
  function IntendedToggle(t: Task): (r: string)
    ensures r == Todo <==> t.status == Done
    ensures r == Done <==> t.status != Done
  {
    ToggledStatus(Some(StringArg(t.status)))
  }

  /** A done task shows the difference: as written its check button sends
      `done` again, so it can never be reopened from the list, where the
      intended toggle sends `todo`. */
  lemma WrappedToggleAlwaysDone(env: HostEnv, haptic: HapticFeedback, t: Task)
    requires haptic.Valid()
    requires t.status == Done
    ensures ButtonToggle(env, haptic, t) == Done
    ensures IntendedToggle(t) == Todo
  {
  }

  /** With the intended toggle, toggling twice returns a `todo` or `done` task
      to its status; any other status is lost to `todo`. */
  lemma ToggleTwice(t: Task)
    ensures t.status == Todo || t.status == Done ==> IntendedToggle(t.(status := IntendedToggle(t))) == t.status
    ensures t.status != Todo && t.status != Done ==> IntendedToggle(t.(status := IntendedToggle(t))) == Todo
  {
  }

  // ---------------------------------------------------------------------------
  // Filtering

  /** The status part of the filter. `'all'` and every unknown key keep all tasks. */
  predicate StatusMatches(filterKey: string, t: Task, now: int) {
    if filterKey == "pending" then t.status == Todo || t.status == InProgress
    else if filterKey == "completed" then t.status == Done
    else if filterKey == "overdue" then IsOverdue(t, now)
    else true
  }

  /** The search part: an empty query keeps everything, otherwise the query
      must occur in the title or the description, both lower-cased. */
  predicate SearchMatches(query: string, t: Task) {
    query == ""
    || Includes(ToLower(t.title), ToLower(query))
    || (t.description.Some? && Includes(ToLower(t.description.value), ToLower(query)))
  }

  /** The `filter` callback of `filteredTasks`. */
  function Visible(filterKey: string, query: string, now: int): Task -> bool {
    (t: Task) => StatusMatches(filterKey, t, now) && SearchMatches(query, t)
  }

  /** `filteredTasks`: the tasks passing both parts, in store order. */
  function FilteredTasks(tasks: seq<Task>, filterKey: string, query: string, now: int): (r: seq<Task>)
    ensures forall t :: t in r <==> t in tasks && StatusMatches(filterKey, t, now) && SearchMatches(query, t)
    ensures IsSubsequence(r, tasks)
  {
    FilterIsSubsequence(tasks, Visible(filterKey, query, now));
    Filter(tasks, Visible(filterKey, query, now))
  }

  /** With no query and the `'all'` filter (or any unknown key) every task is shown. */
  lemma ShowAll(tasks: seq<Task>, filterKey: string, now: int)
    requires filterKey !in {"pending", "completed", "overdue"}
    ensures FilteredTasks(tasks, filterKey, "", now) == tasks
  {
    FilterKeepsAll(tasks, Visible(filterKey, "", now));
  }

  /** A non-empty query matches in the title or the description at some position. */
  lemma SearchMatchesAt(query: string, t: Task)
    requires query != ""
    ensures SearchMatches(query, t) <==>
      (exists i :: OccursAt(ToLower(t.title), ToLower(query), i))
      || (t.description.Some? && exists i :: OccursAt(ToLower(t.description.value), ToLower(query), i))
  {
    IncludesAt(ToLower(t.title), ToLower(query));
    if t.description.Some? {
      IncludesAt(ToLower(t.description.value), ToLower(query));
    }
  }

  /** Lower-casing is idempotent on every character. */
  lemma LowerCharIdempotent(c: char)
    ensures LowerChar(LowerChar(c)) == LowerChar(c)
  {
  }

  lemma ToLowerIdempotent(s: string)
    ensures ToLower(ToLower(s)) == ToLower(s)
  {
    forall i | 0 <= i < |s| ensures ToLower(ToLower(s))[i] == ToLower(s)[i] {
      LowerCharIdempotent(s[i]);
    }
  }

  /** The search ignores the case of the query: a lower-cased query finds the same tasks. */
  lemma SearchIgnoresQueryCase(tasks: seq<Task>, filterKey: string, query: string, now: int)
    ensures FilteredTasks(tasks, filterKey, ToLower(query), now) == FilteredTasks(tasks, filterKey, query, now)
  {
    ToLowerIdempotent(query);
    assert ToLower(query) == "" <==> query == "";
    FilterCongruent(tasks, Visible(filterKey, ToLower(query), now), Visible(filterKey, query, now));
  }

  // ---------------------------------------------------------------------------
  // Filter buttons

  datatype FilterOption = FilterOption(key: string, title: string, count: nat)

  /** The `filter` callback of each count, as the page writes it. */
  function CountedBy(key: string, now: int): Task -> bool {
    (t: Task) => StatusMatches(key, t, now)
  }

  /** The four filter buttons and their counts. */
  function FilterOptions(tasks: seq<Task>, now: int): (r: seq<FilterOption>)
    ensures |r| == 4
    ensures r[0].key == "all" && r[1].key == "pending" && r[2].key == "completed" && r[3].key == "overdue"
    ensures r[0].count == |tasks|
    ensures forall i :: 1 <= i < 4 ==> r[i].count <= |tasks|
  {
    [ FilterOption("all", "Все", |tasks|),
      FilterOption("pending", "В работе", |Filter(tasks, CountedBy("pending", now))|),
      FilterOption("completed", "Выполнено", |Filter(tasks, CountedBy("completed", now))|),
      FilterOption("overdue", "Просрочено", |Filter(tasks, CountedBy("overdue", now))|) ]
  }

  /** Each button's count is the number of tasks its filter shows when the search is empty. */
  lemma CountsMatchFilter(tasks: seq<Task>, now: int, i: int)
    requires 0 <= i < 4
    ensures FilterOptions(tasks, now)[i].count == |FilteredTasks(tasks, FilterOptions(tasks, now)[i].key, "", now)|
  {
    var key := FilterOptions(tasks, now)[i].key;
    if i == 0 {
      ShowAll(tasks, key, now);
    } else {
      FilterCongruent(tasks, CountedBy(key, now), Visible(key, "", now));
    }
  }

  // ---------------------------------------------------------------------------
  // Page state

  /** The page's `useState` hooks and the handlers that set them. */
  class TasksPage {
    var filter: string
    var searchQuery: string
    var showCreateTaskForm: bool
    var selectedProjectId: Option<Id>

    constructor()
      ensures filter == "all" && searchQuery == ""
      ensures !showCreateTaskForm && selectedProjectId.None?
    {
      filter := "all";
      searchQuery := "";
      showCreateTaskForm := false;
      selectedProjectId := None;
    }

    /** `handleFilterChange`. */
    method ChangeFilter(key: string)
      modifies this
      ensures filter == key
      ensures searchQuery == old(searchQuery) && showCreateTaskForm == old(showCreateTaskForm)
      ensures selectedProjectId == old(selectedProjectId)
    {
      filter := key;
    }

    /** The search box's `onChange`. */
    method ChangeSearchQuery(query: string)
      modifies this
      ensures searchQuery == query
      ensures filter == old(filter) && showCreateTaskForm == old(showCreateTaskForm)
      ensures selectedProjectId == old(selectedProjectId)
    {
      searchQuery := query;
    }

    /** `handleShowCreateTaskForm`: with no project it alerts and leaves the
        form closed; with exactly one it preselects that project; then it opens
        the form. */
    method ShowCreateTaskForm(projects: seq<Project>) returns (alerted: bool)
      modifies this
      ensures alerted <==> |projects| == 0
      ensures alerted ==> showCreateTaskForm == old(showCreateTaskForm) && selectedProjectId == old(selectedProjectId)
      ensures !alerted ==> showCreateTaskForm
      ensures |projects| == 1 ==> selectedProjectId == Some(projects[0].id)
      ensures |projects| > 1 ==> selectedProjectId == old(selectedProjectId)
      ensures filter == old(filter) && searchQuery == old(searchQuery)
    {
      if |projects| == 0 {
        return true;
      }
      if |projects| == 1 {
        selectedProjectId := Some(projects[0].id);
      }
      showCreateTaskForm := true;
      alerted := false;
    }

    /** `handleCloseCreateTaskForm`: closes the form and forgets the project. */
    method CloseCreateTaskForm()
      modifies this
      ensures !showCreateTaskForm && selectedProjectId.None?
      ensures filter == old(filter) && searchQuery == old(searchQuery)
    {
      showCreateTaskForm := false;
      selectedProjectId := None;
    }

    /** The list the page renders for the current filter and query. */
    function Shown(tasks: seq<Task>, now: int): (r: seq<Task>)
      reads this
      ensures r == FilteredTasks(tasks, filter, searchQuery, now)
      ensures forall t :: t in r <==> t in tasks && StatusMatches(filter, t, now) && SearchMatches(searchQuery, t)
      ensures IsSubsequence(r, tasks)
      ensures searchQuery == "" && filter !in {"pending", "completed", "overdue"} ==> r == tasks
    {
      if searchQuery == "" && filter !in {"pending", "completed", "overdue"} then
        ShowAll(tasks, filter, now);
        FilteredTasks(tasks, filter, searchQuery, now)
      else
        FilteredTasks(tasks, filter, searchQuery, now)
    }
  }
}
