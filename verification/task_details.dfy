/**
 * The task page (src/pages/tasks/TaskDetails.tsx): who may manage a task,
 * the status buttons it offers, the labels it shows, and the handlers that
 * load, update and delete the task. The status and type labels are shared
 * with the task list.
 */
module TaskDetails {
  import opened Wrappers
  import opened Domain
  import opened Http
  import TaskService

  const TaskManagerRoles: seq<Role> := [Owner, Manager]

  /** `canManageTask`. */
  predicate CanManageTask(user: Option<User>)
    ensures CanManageTask(user) <==> user.Some? && (user.value.role == Owner || user.value.role == Manager)
  {
    HasRole(user, TaskManagerRoles)
  }

  /** Position of a status along the forward chain PENDING, IN_PROGRESS, COMPLETED. */
  function TaskRank(status: string): (n: int)
    ensures status in TaskStatuses && status != Cancelled <==> 0 <= n
  {
    if status == Pending then 0
    else if status == InProgress then 1
    else if status == Completed then 2
    else -1
  }

  predicate IsTerminalTaskStatus(status: string)
  {
    status == Completed || status == Cancelled
  }

  /** The status buttons of the status card, in screen order: the forward step, if any, then cancel. */
  function TaskActions(canManage: bool, status: string): (r: seq<string>)
    ensures !canManage || IsTerminalTaskStatus(status) ==> r == []
    ensures canManage && !IsTerminalTaskStatus(status) ==> |r| >= 1 && r[|r| - 1] == Cancelled
    ensures |r| <= 2
    ensures forall k :: 0 <= k < |r| - 1 ==> TaskRank(r[k]) == TaskRank(status) + 1 && TaskRank(status) >= 0
    ensures Scheduled !in r
  {
    if !canManage || status == Completed || status == Cancelled then []
    else
      assert TaskRank(Pending) == 0 && TaskRank(InProgress) == 1 && TaskRank(Completed) == 2;
      (if status == Pending then [InProgress] else [])
      + (if status == InProgress then [Completed] else [])
      + [Cancelled]
  }

  /** The forward target offered from a status, if any. */
  function NextTaskStatus(status: string): Option<string>
  {
    var r := TaskActions(true, status);
    if |r| == 2 then Some(r[0]) else None
  }

  /**
   * PENDING and IN_PROGRESS each have exactly one forward step, and both
   * offer cancel; any other non-terminal value, SCHEDULED included, only
   * offers cancel.
   */
  lemma TaskForwardSteps(status: string)
    ensures NextTaskStatus(Pending) == Some(InProgress)
    ensures NextTaskStatus(InProgress) == Some(Completed)
    ensures NextTaskStatus(Completed) == None && NextTaskStatus(Cancelled) == None
    ensures status != Pending && status != InProgress && !IsTerminalTaskStatus(status) ==> TaskActions(true, status) == [Cancelled]
  {
  }

  const TaskStatusLabels: seq<string> := ["În așteptare", "În lucru", "Finalizat", "Anulat"]

  /** `getStatusLabel`: a fixed label per known status; anything else is shown as it is. */
  function TaskStatusLabel(status: string): (text: string)
    ensures forall k :: 0 <= k < |TaskStatuses| && status == TaskStatuses[k] ==> text == TaskStatusLabels[k]
    ensures status !in TaskStatuses ==> text == status
  {
    if status == Pending then "În așteptare"
    else if status == InProgress then "În lucru"
    else if status == Completed then "Finalizat"
    else if status == Cancelled then "Anulat"
    else status
  }

  const TaskTypeLabels: seq<string> := ["Montare", "Reparație", "Măsurare", "Consultanță", "Altele"]

  /** `getTypeLabel`: a fixed label per known type; anything else is shown as it is. */
  function TaskTypeLabel(taskType: string): (text: string)
    ensures forall k :: 0 <= k < |TaskTypes| && taskType == TaskTypes[k] ==> text == TaskTypeLabels[k]
    ensures taskType !in TaskTypes ==> text == taskType
  {
    if taskType == Montare then "Montare"
    else if taskType == Reparatie then "Reparație"
    else if taskType == Masurare then "Măsurare"
    else if taskType == Consultanta then "Consultanță"
    else if taskType == Altele then "Altele"
    else taskType
  }

  /** Different known statuses never share a label. */
  lemma TaskStatusLabelsDistinct(a: string, b: string)
    requires a in TaskStatuses && b in TaskStatuses && a != b
    ensures TaskStatusLabel(a) != TaskStatusLabel(b)
  {
  }

  /** Different known types never share a label. */
  lemma TaskTypeLabelsDistinct(a: string, b: string)
    requires a in TaskTypes && b in TaskTypes && a != b
    ensures TaskTypeLabel(a) != TaskTypeLabel(b)
  {
  }

  /** `{ ...data, assignedByUser }`: the fetched task with only its assigner filled in. */
  function WithAssigner(data: Task, assigner: User): (t: Task)
    ensures t.assignedByUser == Some(assigner)
    ensures t.(assignedByUser := data.assignedByUser) == data
  {
    data.(assignedByUser := Some(assigner))
  }

  /** `getTaskDetails`: company first, then task, in the path. */
  function GetTaskDetails(taskId: string, companyId: string): (r: Request)
    ensures r.verb == Get && r.path == "/tasks/" + companyId + "/" + taskId && r.query == [] && r.body == None
  {
    Request(Get, "/tasks/" + companyId + "/" + taskId, [], None)
  }

  /** `getUserById`. */
  function GetUserById(userId: string): (r: Request)
    ensures r.verb == Get && r.path == "/users/" + userId && r.query == [] && r.body == None
  {
    Request(Get, "/users/" + userId, [], None)
  }

  class TaskDetailsPage {
    /** The `:taskId` route parameter; the empty string is an absent one. */
    const taskId: string
    const user: Option<User>
    var task: Option<Task>
    var loading: bool
    /** The last `navigate` call, if any. */
    var navigatedTo: Option<string>

    constructor (taskId: string, user: Option<User>)
      ensures this.taskId == taskId && this.user == user
      ensures task == None && loading && navigatedTo == None
    {
      this.taskId := taskId;
      this.user := user;
      task := None;
      loading := true;
      navigatedTo := None;
    }

    /**
     * `loadTaskDetails`: without a company it throws into its own `catch`;
     * otherwise it fetches the task, then its assigner by `assignedBy`.
     * `fetched` and `lookup` are the servers' answers.
     */
    method LoadTaskDetails(fetched: Response<Task>, lookup: string -> Response<User>) returns (sent: seq<Request>)
      modifies this
      ensures taskId == "" ==> sent == [] && task == old(task) && loading == old(loading) && navigatedTo == old(navigatedTo)
      ensures taskId != "" ==> !loading
      ensures taskId != "" && CompanyOf(user).None? ==> sent == [] && task == old(task) && navigatedTo == Some("/tasks")
      ensures taskId != "" && CompanyOf(user).Some? ==>
        && |sent| >= 1 && sent[0] == GetTaskDetails(taskId, user.value.companyId)
        && (fetched.Failure? ==> |sent| == 1 && task == old(task) && navigatedTo == Some("/tasks"))
        && (fetched.Success? ==> sent == [sent[0], GetUserById(fetched.value.assignedBy)])
        && (fetched.Success? && lookup(fetched.value.assignedBy).Success? ==>
              task == Some(WithAssigner(fetched.value, lookup(fetched.value.assignedBy).value))
              && navigatedTo == old(navigatedTo))
        && (fetched.Success? && lookup(fetched.value.assignedBy).Failure? ==>
              task == old(task) && navigatedTo == Some("/tasks"))
    {
      sent := [];
      if taskId == "" {
        return;
      }
      var company := CompanyOf(user);
      if company.None? {
        navigatedTo := Some("/tasks");
      } else {
        sent := [GetTaskDetails(taskId, company.value)];
        match fetched {
          case Failure =>
            navigatedTo := Some("/tasks");
          case Success(data) =>
            sent := sent + [GetUserById(data.assignedBy)];
            match lookup(data.assignedBy) {
              case Failure =>
                navigatedTo := Some("/tasks");
              case Success(assigner) =>
                task := Some(WithAssigner(data, assigner));
            }
        }
      }
      loading := false;
    }

    /** `handleStatusChange`: without a company it takes the error path and the task stays. */
    method HandleStatusChange(newStatus: string, reply: Response<Task>) returns (sent: Option<Request>)
      modifies this`task
      ensures old(task).None? || taskId == "" || CompanyOf(user).None? ==> sent == None && task == old(task)
      ensures old(task).Some? && taskId != "" && CompanyOf(user).Some? ==>
        sent == Some(TaskService.UpdateTaskStatus(taskId, newStatus, user.value.companyId))
        && task == if reply.Success? then Some(reply.value) else old(task)
    {
      sent := None;
      if task.None? || taskId == "" {
        return;
      }
      var company := CompanyOf(user);
      if company.Some? {
        sent := Some(TaskService.UpdateTaskStatus(taskId, newStatus, company.value));
        if reply.Success? {
          task := Some(reply.value);
        }
      }
    }

    /** `handleDelete`: the acting user's id, or `''` without a user, travels with the request. */
    method HandleDelete(reply: Response<()>) returns (sent: Option<Request>)
      modifies this`navigatedTo
      ensures taskId == "" ==> sent == None && navigatedTo == old(navigatedTo)
      ensures taskId != "" ==> sent == Some(TaskService.DeleteTask(taskId, if user.Some? then user.value.id else ""))
      ensures taskId != "" ==> navigatedTo == if reply.Success? then Some("/tasks") else old(navigatedTo)
    {
      if taskId == "" {
        sent := None;
        return;
      }
      sent := Some(TaskService.DeleteTask(taskId, if user.Some? then user.value.id else ""));
      if reply.Success? {
        navigatedTo := Some("/tasks");
      }
    }
  }

  /** A task page shows no status button to technicians or operators. */
  lemma OnlyOwnersAndManagersChangeTasks(user: User, status: string)
    requires user.role == Technician || user.role == Operator
    ensures TaskActions(CanManageTask(Some(user)), status) == []
  {
  }
}
