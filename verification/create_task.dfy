/**
 * The new-task form (src/pages/tasks/CreateTask.tsx): its schema, the
 * company guard, the payload (the form values plus company and assigner)
 * and the `creatorUserId` parameter of `createTask`.
 */
module CreateTask {
  import opened Wrappers
  import opened Domain
  import opened Http

  datatype TaskForm = TaskForm(
    title: string,
    description: string,
    taskType: string,
    scheduledDate: string,
    userId: Option<string>,
    teamId: Option<string>)

  /** `{ ...values, companyId, assignedBy }`. */
  datatype TaskPayload = TaskPayload(values: TaskForm, companyId: string, assignedBy: string)

  const TitleTooShort := "Titlul trebuie să aibă cel puțin 3 caractere"
  const DescriptionTooShort := "Descrierea trebuie să aibă cel puțin 10 caractere"
  /** The schema gives the task type no message of its own; this stands for the enum check's default one. */
  const InvalidTaskType := "Invalid enum value"
  const ScheduledDateMissing := "Data programată este obligatorie"

  /** The schema's messages, one per failing field, in field order. */
  function TaskFormErrors(values: TaskForm): (errors: seq<string>)
    ensures errors == [] <==>
      |values.title| >= 3 && |values.description| >= 10 && values.taskType in TaskTypes && values.scheduledDate != ""
    ensures TitleTooShort in errors <==> |values.title| < 3
    ensures DescriptionTooShort in errors <==> |values.description| < 10
    ensures InvalidTaskType in errors <==> values.taskType !in TaskTypes
    ensures ScheduledDateMissing in errors <==> values.scheduledDate == ""
    ensures |errors| == (if |values.title| < 3 then 1 else 0) + (if |values.description| < 10 then 1 else 0)
                      + (if values.taskType !in TaskTypes then 1 else 0) + (if values.scheduledDate == "" then 1 else 0)
    ensures |values.title| < 3 ==> errors[0] == TitleTooShort
    ensures |values.description| < 10 ==> errors[if |values.title| < 3 then 1 else 0] == DescriptionTooShort
    ensures values.taskType !in TaskTypes ==>
      errors[(if |values.title| < 3 then 1 else 0) + (if |values.description| < 10 then 1 else 0)] == InvalidTaskType
    ensures values.scheduledDate == "" ==> errors[|errors| - 1] == ScheduledDateMissing
  {
    (if |values.title| < 3 then [TitleTooShort] else [])
    + (if |values.description| < 10 then [DescriptionTooShort] else [])
    + (if values.taskType !in TaskTypes then [InvalidTaskType] else [])
    + (if |values.scheduledDate| < 1 then [ScheduledDateMissing] else [])
  }

  /**
   * The query of `createTask(task, creatorUserId)`: `URLSearchParams`
   * writes a missing argument as the text `undefined`.
   */
  function CreateTaskQuery(creatorUserId: Option<string>): (q: Params)
    ensures Keys(q) == ["creatorUserId"]
    ensures Lookup(q, "creatorUserId") == Some(if creatorUserId.Some? then creatorUserId.value else "undefined")
  {
    [("creatorUserId", if creatorUserId.Some? then creatorUserId.value else "undefined")]
  }

  /** `createTask(task, creatorUserId)`: a POST to `/tasks` with the creator in the query and the task as the JSON body. */
  function CreateTaskRequest(payload: TaskPayload, creatorUserId: Option<string>): (r: JsonRequest<TaskPayload>)
    ensures r.verb == Post && r.path == "/tasks" && r.query == CreateTaskQuery(creatorUserId) && r.body == payload
  {
    JsonRequest(Post, "/tasks", CreateTaskQuery(creatorUserId), payload)
  }

  /** What the page sends as written: it passes no second argument. */
  function CreateTaskCallAsWritten(values: TaskForm, user: User): (call: JsonRequest<TaskPayload>)
    ensures call.verb == Post && call.path == "/tasks"
    ensures call.body == TaskPayload(values, user.companyId, user.id)
    ensures Lookup(call.query, "creatorUserId") == Some("undefined")
  {
    CreateTaskRequest(TaskPayload(values, user.companyId, user.id), None)
  }

  /** What the page evidently means to send: the signed-in user as creator. */
  function CreateTaskCall(values: TaskForm, user: User): (call: JsonRequest<TaskPayload>)
    ensures call.verb == Post && call.path == "/tasks"
    ensures call.body == TaskPayload(values, user.companyId, user.id)
    ensures Lookup(call.query, "creatorUserId") == Some(user.id)
  {
    CreateTaskRequest(TaskPayload(values, user.companyId, user.id), Some(user.id))
  }

  /** The creator parameter as written names nobody, and disagrees with the payload's own assigner. */
  lemma CreatorUserIdAsWrittenIsLost(values: TaskForm, user: User)
    requires user.id != "undefined"
    ensures Lookup(CreateTaskCallAsWritten(values, user).query, "creatorUserId") != Some(CreateTaskCallAsWritten(values, user).body.assignedBy)
    ensures Lookup(CreateTaskCall(values, user).query, "creatorUserId") == Some(CreateTaskCall(values, user).body.assignedBy)
  {
  }

  class CreateTaskPage {
    const user: Option<User>
    var loading: bool
    /** The last `navigate` call, if any. */
    var navigatedTo: Option<string>

    constructor (user: Option<User>)
      ensures this.user == user && !loading && navigatedTo == None
    {
      this.user := user;
      loading := false;
      navigatedTo := None;
    }

    /** Submitting up to the awaited `createTask`, with the creator passed. */
    method BeginSubmit(values: TaskForm) returns (sent: Option<JsonRequest<TaskPayload>>)
      modifies this`loading
      ensures TaskFormErrors(values) != [] || CompanyOf(user).None? ==> sent == None && loading == old(loading)
      ensures TaskFormErrors(values) == [] && CompanyOf(user).Some? ==>
        sent == Some(CreateTaskCall(values, user.value)) && loading
    {
      sent := None;
      if TaskFormErrors(values) != [] || CompanyOf(user).None? {
        return;
      }
      loading := true;
      sent := Some(CreateTaskCall(values, user.value));
    }

    /** The call settled: the spinner stops either way; success leaves for the task list. */
    method Settle(reply: Response<Task>)
      modifies this
      ensures !loading
      ensures navigatedTo == if reply.Success? then Some("/tasks") else old(navigatedTo)
    {
      if reply.Success? {
        navigatedTo := Some("/tasks");
      }
      loading := false;
    }
  }
}
