/** The ten routes over task lists and tasks. Each obtains the client,
    issues exactly one remote call, and shapes the outcome: the remote
    payload, the payload's `items`, or a fixed message on success; the
    remote status and the error's rendering on an `HttpError`. The remote service is a
    parameter: a function from the call issued to what executing it
    gives. */
module Routes {
  import opened Wrappers
  import opened Models
  import opened Payloads
  import opened Service

  /** The remote operations, with their path parameters and bodies. */
  datatype Call =
    | TaskListsList
    | TaskListsInsert(body: Body)
    | TaskListsGet(tasklist: string)
    | TaskListsUpdate(tasklist: string, body: Body)
    | TaskListsDelete(tasklist: string)
    | TasksList(tasklist: string)
    | TasksInsert(tasklist: string, body: Body)
    | TasksGet(tasklist: string, task: string)
    | TasksUpdate(tasklist: string, task: string, body: Body)
    | TasksDelete(tasklist: string, task: string)

  /** What executing a remote call gives: the decoded JSON object, or an
      `HttpError` with the remote status and `rendered`, the client
      library's text for the error (`str(err)`), which is not the bare
      remote message. */
  datatype Outcome =
    | Executed(payload: map<string, Json>)
    | HttpError(status: int, rendered: string)

  /** The remote task API. */
  type Remote = Call -> Outcome

  /** An inbound request: the route and its path and body parameters. */
  datatype Route =
    | ListTaskLists
    | CreateTaskList(newList: TaskListCreate)
    | GetTaskList(tasklistId: string)
    | UpdateTaskList(tasklistId: string, listChanges: TaskListUpdate)
    | DeleteTaskList(tasklistId: string)
    | ListTasks(tasklistId: string)
    | CreateTask(tasklistId: string, newTask: TaskCreate)
    | GetTask(tasklistId: string, taskId: string)
    | UpdateTask(tasklistId: string, taskId: string, taskChanges: TaskUpdate)
    | DeleteTask(tasklistId: string, taskId: string)

  /** What a route returns: a JSON reply, or a raised HTTP error. */
  datatype Response = Reply(json: Json) | Raised(error: HttpException)

  const TaskListDeleted := "Task list deleted successfully"
  const TaskDeleted := "Task deleted successfully"

  /** The five kinds of operation, on the remote side and on the routes. */
  datatype Operation = ListOp | InsertOp | GetOp | UpdateOp | DeleteOp

  /** The two collections of the remote API. */
  datatype Resource = TaskLists | Tasks

  function CallOperation(c: Call): Operation
  {
    match c
    case TaskListsList | TasksList(_) => ListOp
    case TaskListsInsert(_) | TasksInsert(_, _) => InsertOp
    case TaskListsGet(_) | TasksGet(_, _) => GetOp
    case TaskListsUpdate(_, _) | TasksUpdate(_, _, _) => UpdateOp
    case TaskListsDelete(_) | TasksDelete(_, _) => DeleteOp
  }

  function CallResource(c: Call): Resource
  {
    if c.TaskListsList? || c.TaskListsInsert? || c.TaskListsGet? || c.TaskListsUpdate? || c.TaskListsDelete?
    then TaskLists else Tasks
  }

  /** The path parameters of a call, outermost first. */
  function CallPathIds(c: Call): seq<string>
  {
    match c
    case TaskListsList => []
    case TaskListsInsert(_) => []
    case TaskListsGet(tasklist) => [tasklist]
    case TaskListsUpdate(tasklist, _) => [tasklist]
    case TaskListsDelete(tasklist) => [tasklist]
    case TasksList(tasklist) => [tasklist]
    case TasksInsert(tasklist, _) => [tasklist]
    case TasksGet(tasklist, task) => [tasklist, task]
    case TasksUpdate(tasklist, task, _) => [tasklist, task]
    case TasksDelete(tasklist, task) => [tasklist, task]
  }

  /** The request body of a call, if it carries one. */
  function CallBody(c: Call): Option<Body>
  {
    match c
    case TaskListsInsert(body) => Some(body)
    case TaskListsUpdate(_, body) => Some(body)
    case TasksInsert(_, body) => Some(body)
    case TasksUpdate(_, _, body) => Some(body)
    case _ => None
  }

  /** A call is fixed by its operation, collection, path and body. */
  lemma CallDetermined(c: Call, d: Call)
    requires CallOperation(c) == CallOperation(d) && CallResource(c) == CallResource(d)
    requires CallPathIds(c) == CallPathIds(d) && CallBody(c) == CallBody(d)
    ensures c == d
  {
  }

  /** The route table: the operation each route performs, on which
      collection, and the path parameters it takes. */
  function RouteOperation(route: Route): Operation
  {
    match route
    case ListTaskLists | ListTasks(_) => ListOp
    case CreateTaskList(_) | CreateTask(_, _) => InsertOp
    case GetTaskList(_) | GetTask(_, _) => GetOp
    case UpdateTaskList(_, _) | UpdateTask(_, _, _) => UpdateOp
    case DeleteTaskList(_) | DeleteTask(_, _) => DeleteOp
  }

  function RouteResource(route: Route): Resource
  {
    if route.ListTaskLists? || route.CreateTaskList? || route.GetTaskList? || route.UpdateTaskList? || route.DeleteTaskList?
    then TaskLists else Tasks
  }

  function RoutePathIds(route: Route): seq<string>
  {
    match route
    case ListTaskLists => []
    case CreateTaskList(_) => []
    case GetTaskList(tasklistId) => [tasklistId]
    case UpdateTaskList(tasklistId, _) => [tasklistId]
    case DeleteTaskList(tasklistId) => [tasklistId]
    case ListTasks(tasklistId) => [tasklistId]
    case CreateTask(tasklistId, _) => [tasklistId]
    case GetTask(tasklistId, taskId) => [tasklistId, taskId]
    case UpdateTask(tasklistId, taskId, _) => [tasklistId, taskId]
    case DeleteTask(tasklistId, taskId) => [tasklistId, taskId]
  }

  /** The one remote call each route issues: the route's own operation on
      its own collection, with the route's path parameters in order, and
      the body built from the request exactly for inserts and updates. */
  function RemoteCall(route: Route): (c: Call)
    ensures CallOperation(c) == RouteOperation(route)
    ensures CallResource(c) == RouteResource(route)
    ensures CallPathIds(c) == RoutePathIds(route)
    ensures CallBody(c).Some? <==> RouteOperation(route) in {InsertOp, UpdateOp}
    ensures route.CreateTaskList? ==> CallBody(c) == Some(TaskListBody(route.newList.title))
    ensures route.UpdateTaskList? ==> CallBody(c) == Some(TaskListBody(route.listChanges.title))
    ensures route.CreateTask? ==> CallBody(c) == Some(CreateTaskBody(route.newTask))
    ensures route.UpdateTask? ==> CallBody(c) == Some(UpdateTaskBody(route.taskChanges))
  {
    match route
    case ListTaskLists => TaskListsList
    case CreateTaskList(request) => TaskListsInsert(TaskListBody(request.title))
    case GetTaskList(tasklistId) => TaskListsGet(tasklistId)
    case UpdateTaskList(tasklistId, request) => TaskListsUpdate(tasklistId, TaskListBody(request.title))
    case DeleteTaskList(tasklistId) => TaskListsDelete(tasklistId)
    case ListTasks(tasklistId) => TasksList(tasklistId)
    case CreateTask(tasklistId, request) => TasksInsert(tasklistId, CreateTaskBody(request))
    case GetTask(tasklistId, taskId) => TasksGet(tasklistId, taskId)
    case UpdateTask(tasklistId, taskId, request) => TasksUpdate(tasklistId, taskId, UpdateTaskBody(request))
    case DeleteTask(tasklistId, taskId) => TasksDelete(tasklistId, taskId)
  }

  /** The payload's `items`, or the empty list when it has none. */
  function Items(payload: map<string, Json>): Json
  {
    GetOr(payload, "items", JArray([]))
  }

  function Message(text: string): Json
  {
    JObject(map["message" := JString(text)])
  }

  /** The get, insert and update routes, which reply with the remote
      payload itself. */
  predicate RepliesVerbatim(route: Route)
  {
    route.CreateTaskList? || route.GetTaskList? || route.UpdateTaskList?
    || route.CreateTask? || route.GetTask? || route.UpdateTask?
  }

  /** The reply a route gives for a successful remote call: a list route
      wraps the payload's `items` under its collection's name, a delete
      route gives its collection's fixed message, and every other route
      gives the payload itself. */
  function Shape(route: Route, payload: map<string, Json>): (j: Json)
    ensures RouteOperation(route) == ListOp ==>
      j == JObject(map[(if RouteResource(route) == TaskLists then "tasklists" else "tasks") := Items(payload)])
    ensures RouteOperation(route) == DeleteOp ==>
      j == Message(if RouteResource(route) == TaskLists then TaskListDeleted else TaskDeleted)
    ensures RouteOperation(route) in {InsertOp, GetOp, UpdateOp} <==> RepliesVerbatim(route)
    ensures RepliesVerbatim(route) ==> j == JObject(payload)
  {
    match route
    case ListTaskLists => JObject(map["tasklists" := Items(payload)])
    case ListTasks(_) => JObject(map["tasks" := Items(payload)])
    case DeleteTaskList(_) => Message(TaskListDeleted)
    case DeleteTask(_, _) => Message(TaskDeleted)
    case _ => JObject(payload)
  }

  /** Serving a route. A failure to obtain the client raises its error;
      otherwise the route issues its remote call; an `HttpError` raises an
      HTTP error with the remote status and the error's rendering, and success replies
      with the shaped payload. */
  function Handle(route: Route, tokenPath: string, file: TokenFile, remote: Remote): (r: Response)
    ensures !file.Usable? ==> r.Raised? && r.error.statusCode == InternalServerError
    ensures !file.Usable? ==> r == Raised(GetGoogleService(tokenPath, file).error)
    ensures file.Usable? && remote(RemoteCall(route)).HttpError? ==>
      r == Raised(HttpException(remote(RemoteCall(route)).status, remote(RemoteCall(route)).rendered))
    ensures file.Usable? && remote(RemoteCall(route)).Executed? ==> r.Reply?
    ensures file.Usable? && remote(RemoteCall(route)).Executed? && (route.ListTaskLists? || route.ListTasks?) ==>
      var payload := remote(RemoteCall(route)).payload;
      var key := if route.ListTaskLists? then "tasklists" else "tasks";
      r.json == JObject(map[key := if "items" in payload then payload["items"] else JArray([])])
    ensures file.Usable? && remote(RemoteCall(route)).Executed? && route.DeleteTaskList? ==>
      r.json == JObject(map["message" := JString("Task list deleted successfully")])
    ensures file.Usable? && remote(RemoteCall(route)).Executed? && route.DeleteTask? ==>
      r.json == JObject(map["message" := JString("Task deleted successfully")])
    ensures file.Usable? && remote(RemoteCall(route)).Executed? && RepliesVerbatim(route) ==>
      r.json == JObject(remote(RemoteCall(route)).payload)
  {
    match GetGoogleService(tokenPath, file)
    case Failure(error) => Raised(error)
    case Success(_) =>
      match remote(RemoteCall(route))
      case HttpError(status, rendered) => Raised(HttpException(status, rendered))
      case Executed(payload) => Reply(Shape(route, payload))
  }

  /** When the client cannot be obtained no remote call is made: the
      response is the same whatever the remote service would do. */
  lemma ServiceFailureSkipsRemote(route: Route, tokenPath: string, file: TokenFile, remote1: Remote, remote2: Remote)
    requires !file.Usable?
    ensures Handle(route, tokenPath, file, remote1) == Handle(route, tokenPath, file, remote2)
  {
  }

  /** A delete route replies with its fixed message, whatever payload the
      remote deletion returned. */
  lemma DeleteIgnoresPayload(route: Route, tokenPath: string, remote1: Remote, remote2: Remote)
    requires route.DeleteTaskList? || route.DeleteTask?
    requires remote1(RemoteCall(route)).Executed? && remote2(RemoteCall(route)).Executed?
    ensures Handle(route, tokenPath, Usable, remote1) == Handle(route, tokenPath, Usable, remote2)
  {
  }

  /** A remote 404 surfaces as a 404 whose detail is the error's
      rendering, whatever that text is. */
  lemma NotFoundSurfaces(route: Route, tokenPath: string, remote: Remote, rendered: string)
    requires remote(RemoteCall(route)) == HttpError(404, rendered)
    ensures Handle(route, tokenPath, Usable, remote) == Raised(HttpException(404, rendered))
  {
  }

  /** Listing from a payload without `items` gives the empty list. */
  lemma ListWithoutItemsIsEmpty(route: Route, tokenPath: string, remote: Remote)
    requires route.ListTaskLists? || route.ListTasks?
    requires remote(RemoteCall(route)).Executed? && "items" !in remote(RemoteCall(route)).payload
    ensures Handle(route, tokenPath, Usable, remote) ==
      Reply(JObject(map[(if route.ListTaskLists? then "tasklists" else "tasks") := JArray([])]))
  {
  }

  /** The task-list routes send the title and nothing else. */
  lemma TaskListRoutesSendTitle(request: TaskListCreate, tasklistId: string, changes: TaskListUpdate)
    ensures RemoteCall(CreateTaskList(request)).body == map[Title := request.title]
    ensures RemoteCall(UpdateTaskList(tasklistId, changes)).body == map[Title := changes.title]
    ensures WireBody(RemoteCall(CreateTaskList(request)).body) == map["title" := request.title]
  {
  }

  /** Marking a task completed and nothing else updates it with exactly
      `{"status": "completed"}`. */
  lemma CompleteTaskRequest(tasklistId: string, taskId: string, completeOnly: TaskUpdate)
    requires completeOnly == TaskUpdate(None, None, None, Some(CompletedStatus), None, None, None)
    ensures RemoteCall(UpdateTask(tasklistId, taskId, completeOnly))
      == TasksUpdate(tasklistId, taskId, map[Status := CompletedStatus])
    ensures WireBody(RemoteCall(UpdateTask(tasklistId, taskId, completeOnly)).body) == map["status" := "completed"]
  {
  }
}
