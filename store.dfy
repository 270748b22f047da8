/** The application store (`src/app/contexts/AppContext.js`): the state record,
    its initial value and the reducer `appReducer`, a pure transition from a
    state and an action to the next state. */
module Store {
  import opened Js
  import opened Seqs
  import opened Domain

  datatype AppState = AppState(
    user: Option<User>,
    projects: seq<Project>,
    tasks: seq<Task>,
    currentProject: Option<Project>,
    loading: bool,
    error: Option<string>,
    isAuthenticated: bool)

  /** `initialState`. */
  const InitialState: AppState := AppState(None, [], [], None, false, None, false)

  /** The thirteen action types, and any other `type` string the reducer ignores. */
  datatype Action =
    | SetLoading(loading: bool)
    | SetError(message: Option<string>)
    | SetUser(user: Option<User>)
    | SetProjects(projects: seq<Project>)
    | SetTasks(tasks: seq<Task>)
    | SetCurrentProject(current: Option<Project>)
    | AddProject(project: Project)
    | UpdateProject(project: Project)
    | DeleteProject(projectId: Id)
    | AddTask(task: Task)
    | UpdateTask(task: Task)
    | DeleteTask(taskId: Id)
    | Logout
    | Other(actionType: string)

  // The callbacks the reducer hands to `map` and `filter`.

  function ReplaceProject(p: Project): Project -> Project {
    (q: Project) => if q.id == p.id then p else q
  }

  function KeepOtherProject(id: Id): Project -> bool {
    (q: Project) => q.id != id
  }

  function ReplaceTask(t: Task): Task -> Task {
    (u: Task) => if u.id == t.id then t else u
  }

  function KeepOtherTask(id: Id): Task -> bool {
    (u: Task) => u.id != id
  }

  /** `appReducer`. */
  function Reduce(s: AppState, a: Action): (r: AppState)
    ensures !a.SetUser? && !a.Logout? ==> r.user == s.user && r.isAuthenticated == s.isAuthenticated
    ensures !a.SetLoading? && !a.SetUser? && !a.SetCurrentProject? && !a.Other? ==> !r.loading
  {
    match a
    case SetLoading(b) => s.(loading := b)
    case SetError(e) => s.(error := e, loading := false)
    case SetUser(u) => s.(user := u, isAuthenticated := u.Some?, error := None)
    case SetProjects(ps) => s.(projects := ps, loading := false)
    case SetTasks(ts) => s.(tasks := ts, loading := false)
    case SetCurrentProject(p) => s.(currentProject := p)
    case AddProject(p) => s.(projects := s.projects + [p], loading := false)
    case UpdateProject(p) =>
      s.(projects := Map(s.projects, ReplaceProject(p)),
         currentProject := if s.currentProject.Some? && s.currentProject.value.id == p.id
                           then Some(p) else s.currentProject,
         loading := false)
    case DeleteProject(id) =>
      s.(projects := Filter(s.projects, KeepOtherProject(id)),
         currentProject := if s.currentProject.Some? && s.currentProject.value.id == id
                           then None else s.currentProject,
         loading := false)
    case AddTask(t) => s.(tasks := s.tasks + [t], loading := false)
    case UpdateTask(t) => s.(tasks := Map(s.tasks, ReplaceTask(t)), loading := false)
    case DeleteTask(id) => s.(tasks := Filter(s.tasks, KeepOtherTask(id)), loading := false)
    case Logout => InitialState
    case Other(_) => s
  }

  // ---------------------------------------------------------------------------
  // Scalar fields

  /** SET_LOADING and SET_CURRENT_PROJECT change their own field and nothing else. */
  lemma SetLoadingOnly(s: AppState, b: bool)
    ensures Reduce(s, SetLoading(b)) == s.(loading := b)
  {
  }

  lemma SetCurrentProjectOnly(s: AppState, p: Option<Project>)
    ensures Reduce(s, SetCurrentProject(p)) == s.(currentProject := p)
  {
  }

  /** SET_ERROR records the error and always ends loading. */
  lemma SetErrorStopsLoading(s: AppState, e: Option<string>)
    ensures Reduce(s, SetError(e)).error == e
    ensures !Reduce(s, SetError(e)).loading
    ensures Reduce(s, SetError(e)).(error := s.error, loading := s.loading) == s
  {
  }

  /** SET_USER authenticates exactly when a user is given, and clears the error. */
  lemma SetUserAuthenticates(s: AppState, u: Option<User>)
    ensures Reduce(s, SetUser(u)).isAuthenticated <==> u.Some?
    ensures Reduce(s, SetUser(u)).user == u && Reduce(s, SetUser(u)).error.None?
  {
  }

  /** "Authenticated exactly when a user is stored". */
  predicate AuthConsistent(s: AppState) {
    s.isAuthenticated <==> s.user.Some?
  }

  /** The initial state is consistent and every action keeps it so. */
  lemma AuthConsistentPreserved(s: AppState, a: Action)
    requires AuthConsistent(s)
    ensures AuthConsistent(InitialState)
    ensures AuthConsistent(Reduce(s, a))
  {
  }

  /** LOGOUT returns to the initial state from anywhere; an unknown action changes nothing. */
  lemma LogoutResets(s: AppState, tag: string)
    ensures Reduce(s, Logout) == InitialState
    ensures Reduce(s, Other(tag)) == s
  {
  }

  // ---------------------------------------------------------------------------
  // Task list

  /** ADD_TASK appends the task at the end and ends loading; nothing else changes. */
  lemma AddTaskAppends(s: AppState, t: Task)
    ensures Reduce(s, AddTask(t)).tasks == s.tasks + [t]
    ensures Reduce(s, AddTask(t)) == s.(tasks := s.tasks + [t], loading := false)
  {
  }

  /** UPDATE_TASK keeps length and order, replaces every task with the payload's id
      by the payload and leaves the other tasks as they were. */
  lemma UpdateTaskReplaces(s: AppState, t: Task)
    ensures |Reduce(s, UpdateTask(t)).tasks| == |s.tasks|
    ensures forall i :: 0 <= i < |s.tasks| && s.tasks[i].id == t.id ==> Reduce(s, UpdateTask(t)).tasks[i] == t
    ensures forall i :: 0 <= i < |s.tasks| && s.tasks[i].id != t.id ==> Reduce(s, UpdateTask(t)).tasks[i] == s.tasks[i]
    ensures Reduce(s, UpdateTask(t)).(tasks := s.tasks, loading := s.loading) == s
  {
  }

  /** DELETE_TASK leaves no task with the id, keeps every other task, keeps the
      relative order, and ends loading; nothing else changes. */
  lemma DeleteTaskRemoves(s: AppState, id: Id)
    ensures forall t :: t in Reduce(s, DeleteTask(id)).tasks ==> t.id != id
    ensures forall t :: t in s.tasks && t.id != id ==> t in Reduce(s, DeleteTask(id)).tasks
    ensures IsSubsequence(Reduce(s, DeleteTask(id)).tasks, s.tasks)
    ensures Reduce(s, DeleteTask(id)).(tasks := s.tasks, loading := s.loading) == s
  {
    FilterIsSubsequence(s.tasks, KeepOtherTask(id));
  }

  /** Deleting the same task twice is deleting it once. */
  lemma DeleteTaskIdempotent(s: AppState, id: Id)
    ensures Reduce(Reduce(s, DeleteTask(id)), DeleteTask(id)) == Reduce(s, DeleteTask(id))
  {
    FilterIdempotent(s.tasks, KeepOtherTask(id));
  }

  /** Deleting a task just added under a fresh id restores the task list. */
  lemma DeleteUndoesAdd(s: AppState, t: Task)
    requires forall u :: u in s.tasks ==> u.id != t.id
    ensures Reduce(Reduce(s, AddTask(t)), DeleteTask(t.id)).tasks == s.tasks
  {
    var keep := KeepOtherTask(t.id);
    FilterAppend(s.tasks, [t], keep);
    FilterKeepsAll(s.tasks, keep);
    assert Filter([t], keep) == [];
  }

  /** Updating a task and then deleting it is deleting it. */
  lemma {:induction false} DeleteAfterUpdate(tasks: seq<Task>, t: Task)
    ensures Filter(Map(tasks, ReplaceTask(t)), KeepOtherTask(t.id)) == Filter(tasks, KeepOtherTask(t.id))
    decreases |tasks|
  {
    if tasks != [] {
      DeleteAfterUpdate(tasks[1..], t);
      assert Map(tasks, ReplaceTask(t))[1..] == Map(tasks[1..], ReplaceTask(t));
    }
  }

  /** The same, stated on the reducer. */
  lemma DeleteAfterUpdateTask(s: AppState, t: Task)
    ensures Reduce(Reduce(s, UpdateTask(t)), DeleteTask(t.id)) == Reduce(s, DeleteTask(t.id))
  {
    DeleteAfterUpdate(s.tasks, t);
  }

  // ---------------------------------------------------------------------------
  // Project list and current project

  /** ADD_PROJECT appends the project at the end and ends loading; nothing else changes. */
  lemma AddProjectAppends(s: AppState, p: Project)
    ensures Reduce(s, AddProject(p)) == s.(projects := s.projects + [p], loading := false)
  {
  }

  /** UPDATE_PROJECT replaces projects by id like UPDATE_TASK, and replaces the
      current project only when its id matches. */
  lemma UpdateProjectReplaces(s: AppState, p: Project)
    ensures |Reduce(s, UpdateProject(p)).projects| == |s.projects|
    ensures forall i :: 0 <= i < |s.projects| ==>
      Reduce(s, UpdateProject(p)).projects[i] == if s.projects[i].id == p.id then p else s.projects[i]
    ensures s.currentProject.Some? && s.currentProject.value.id == p.id ==>
      Reduce(s, UpdateProject(p)).currentProject == Some(p)
    ensures s.currentProject.None? || s.currentProject.value.id != p.id ==>
      Reduce(s, UpdateProject(p)).currentProject == s.currentProject
    ensures !Reduce(s, UpdateProject(p)).loading
    ensures Reduce(s, UpdateProject(p)).(projects := s.projects, currentProject := s.currentProject, loading := s.loading) == s
  {
  }

  /** DELETE_PROJECT removes every project with the id, in order, and clears the
      current project only when its id matches. */
  lemma DeleteProjectRemoves(s: AppState, id: Id)
    ensures forall p :: p in Reduce(s, DeleteProject(id)).projects <==> p in s.projects && p.id != id
    ensures IsSubsequence(Reduce(s, DeleteProject(id)).projects, s.projects)
    ensures s.currentProject.Some? && s.currentProject.value.id == id ==>
      Reduce(s, DeleteProject(id)).currentProject.None?
    ensures s.currentProject.None? || s.currentProject.value.id != id ==>
      Reduce(s, DeleteProject(id)).currentProject == s.currentProject
    ensures !Reduce(s, DeleteProject(id)).loading
    ensures Reduce(s, DeleteProject(id)).(projects := s.projects, currentProject := s.currentProject, loading := s.loading) == s
  {
    FilterIsSubsequence(s.projects, KeepOtherProject(id));
  }

  /** Deleting a project leaves the current project pointing at a project that
      is not deleted, or at nothing. */
  lemma DeleteProjectClearsDangling(s: AppState, id: Id)
    ensures Reduce(s, DeleteProject(id)).currentProject.Some? ==>
      Reduce(s, DeleteProject(id)).currentProject.value.id != id
  {
  }
}
