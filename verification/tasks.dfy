/**
 * The task list (src/pages/tasks/Tasks.tsx): the status and type filters
 * with their `'all'` wildcards, who may create tasks, and the initial load.
 */
module Tasks {
  import opened Wrappers
  import opened Seqs
  import opened Domain
  import ProtectedRoute
  import TaskDetails

  const AllFilter := "all"

  function StatusMatches(statusFilter: string): Task -> bool
  {
    (t: Task) => statusFilter == AllFilter || t.status == statusFilter
  }

  function TypeMatches(typeFilter: string): Task -> bool
  {
    (t: Task) => typeFilter == AllFilter || t.taskType == typeFilter
  }

  function BothMatch(statusFilter: string, typeFilter: string): Task -> bool
  {
    (t: Task) => (statusFilter == AllFilter || t.status == statusFilter) && (typeFilter == AllFilter || t.taskType == typeFilter)
  }

  /** `filteredTasks`. */
  function FilteredTasks(tasks: seq<Task>, statusFilter: string, typeFilter: string): (r: seq<Task>)
    ensures forall t :: t in r ==>
      (t in tasks && (statusFilter == AllFilter || t.status == statusFilter) && (typeFilter == AllFilter || t.taskType == typeFilter))
    ensures forall t ::
      (t in tasks && (statusFilter == AllFilter || t.status == statusFilter) && (typeFilter == AllFilter || t.taskType == typeFilter))
      ==> t in r
  {
    Filter(tasks, BothMatch(statusFilter, typeFilter))
  }

  /** Both wildcards keep the whole list, in place. */
  lemma AllKeepsEveryTask(tasks: seq<Task>)
    ensures FilteredTasks(tasks, AllFilter, AllFilter) == tasks
  {
    FilterKeepsAll(tasks, BothMatch(AllFilter, AllFilter));
  }

  /** Filtering by both is filtering by status, then by type. */
  lemma FilteredTasksIsIntersection(tasks: seq<Task>, statusFilter: string, typeFilter: string)
    ensures FilteredTasks(tasks, statusFilter, typeFilter)
      == FilteredTasks(FilteredTasks(tasks, statusFilter, AllFilter), AllFilter, typeFilter)
  {
    FilterConjunction(tasks, StatusMatches(statusFilter), TypeMatches(typeFilter), BothMatch(statusFilter, typeFilter));
    FilterAgreeing(tasks, StatusMatches(statusFilter), BothMatch(statusFilter, AllFilter));
    var s := FilteredTasks(tasks, statusFilter, AllFilter);
    FilterAgreeing(s, TypeMatches(typeFilter), BothMatch(AllFilter, typeFilter));
  }

  /** The shown tasks are a subsequence of the loaded ones. */
  lemma FilteredTasksKeepOrder(tasks: seq<Task>, statusFilter: string, typeFilter: string) returns (idx: seq<nat>)
    ensures |idx| == |FilteredTasks(tasks, statusFilter, typeFilter)|
    ensures forall k :: 0 <= k < |idx| ==> idx[k] < |tasks| && tasks[idx[k]] == FilteredTasks(tasks, statusFilter, typeFilter)[k]
    ensures forall k, l :: 0 <= k < l < |idx| ==> idx[k] < idx[l]
  {
    idx := FilterPreservesOrder(tasks, BothMatch(statusFilter, typeFilter));
  }

  /** `canCreateTask`. */
  predicate CanCreateTask(user: Option<User>)
    ensures CanCreateTask(user) <==> HasRole(user, [Owner, Manager])
  {
    user.Some? && (user.value.role == Owner || user.value.role == Manager)
  }

  /** The create button shows exactly to the users the create route admits, who are also those who may manage a task. */
  lemma CreateButtonMatchesRoute(user: User, location: string)
    ensures CanCreateTask(Some(user))
      <==> ProtectedRoute.Admits(ProtectedRoute.Guard(false, Some(user), Some(ProtectedRoute.CreateTaskRoles), true, location))
    ensures CanCreateTask(Some(user)) <==> TaskDetails.CanManageTask(Some(user))
  {
  }

  /** What `loadTasks` leaves behind: the list and the spinner flag. */
  datatype TasksLoad = TasksLoad(tasks: seq<Task>, loading: bool)

  /**
   * `loadTasks` as written: it calls a service method that is commented
   * out, so with a company the call throws into the `catch` before any
   * request; the list stays as it was and only the spinner stops.
   */
  function LoadTasksAsWritten(before: TasksLoad, user: Option<User>): (after: TasksLoad)
    ensures CompanyOf(user).None? ==> after == before
    ensures CompanyOf(user).Some? ==> after.tasks == before.tasks && !after.loading
  {
    if CompanyOf(user).None? then before else TasksLoad(before.tasks, false)
  }

  /** `loadTasks` as intended: the company's tasks replace the list once the server answers. */
  function LoadTasksIntended(before: TasksLoad, user: Option<User>, reply: Response<seq<Task>>): (after: TasksLoad)
    ensures CompanyOf(user).None? ==> after == before
    ensures CompanyOf(user).Some? ==> !after.loading
    ensures CompanyOf(user).Some? && reply.Success? ==> after.tasks == reply.value
    ensures reply.Failure? ==> after.tasks == before.tasks
  {
    if CompanyOf(user).None? then before
    else TasksLoad(if reply.Success? then reply.value else before.tasks, false)
  }

  /** A user with a company, whose company has a task, still sees an empty list on first load. */
  lemma LoadTasksAsWrittenShowsNothing(user: User, t: Task)
    requires user.companyId != ""
    ensures LoadTasksAsWritten(TasksLoad([], true), Some(user)) == TasksLoad([], false)
    ensures LoadTasksIntended(TasksLoad([], true), Some(user), Success([t])) == TasksLoad([t], false)
  {
  }

  class TasksPage {
    const user: Option<User>
    var tasks: seq<Task>
    var loading: bool
    var statusFilter: string
    var typeFilter: string

    constructor (user: Option<User>)
      ensures this.user == user && tasks == [] && loading && statusFilter == AllFilter && typeFilter == AllFilter
    {
      this.user := user;
      tasks := [];
      loading := true;
      statusFilter := AllFilter;
      typeFilter := AllFilter;
    }

    /** The corrected `loadTasks`; without a company it returns before its `finally`, so the spinner stays. */
    method LoadTasks(reply: Response<seq<Task>>)
      modifies this`tasks, this`loading
      ensures TasksLoad(tasks, loading) == LoadTasksIntended(TasksLoad(old(tasks), old(loading)), user, reply)
    {
      if CompanyOf(user).None? {
        return;
      }
      if reply.Success? {
        tasks := reply.value;
      }
      loading := false;
    }
  }
}
