# Google Tasks HTTP façade: request translation, in Dafny

The service puts REST routes in front of the Google Tasks API. There are
routes to list, create, get, update and delete task lists, and the same five
for tasks.
Each route gets an authenticated client, builds the body the remote API
expects, makes exactly one remote call and relays the outcome. This
project models that translation layer (`fastapi_backend/main.py`) and proves
what it promises:

- **Request models and defaults** (`Models`). `TaskListCreate`, `TaskListUpdate`,
  `TaskCreate` and `TaskUpdate` are datatypes whose optional fields are
  `Option<string>`. `TaskCreateFrom` and `TaskUpdateFrom` apply the declared
  defaults to the fields a client supplied. A field left out is `None`,
  except `TaskCreate.status`, which is `"needsAction"`. A field sent as JSON
  null stays `None`.
- **Payload builders** (`Payloads`). A body is a dict from field names to
  strings. `create_task` and `update_task` build it in place through a chain
  of `if field is not None: body[key] = field`. These are the methods
  `BuildCreateTaskBody` and `BuildUpdateTaskBody`, proved equal to the
  functions `CreateTaskBody` and `UpdateTaskBody`. Those functions state
  which keys are present and with what values. Lemmas relate the
  functions: an update is recovered from its body, and every body is the
  body of some update. A create sends what the equivalent update sends.
  The default status reaches the wire.
- **Obtaining the client** (`Service`). Only the outcome of reading the token
  file and building the client is modelled: the file is missing, loading or
  building failed with a message, or the client was built. Each failure
  raises status 500, and its detail contains the path tried or the
  underlying error.
- **Routes** (`Routes`). `Handle` serves one `Route`. The remote service is a
  parameter `remote: Call -> Outcome` that maps the call issued to its
  outcome: a JSON payload, or an `HttpError` with a status and the error's
  rendering. `RemoteCall` says which remote operation each route issues,
  with which path parameters and body. Its contract relates the call issued
  to the route table, which gives each route's operation, collection and
  path parameters. A call is fixed by those and its body (`CallDetermined`).
  So a route that issued another operation, or passed its ids in another
  order, would contradict the contract. `Shape` says how a successful
  payload becomes the reply:
  - list routes wrap `items` (or `[]`) under `"tasklists"` or `"tasks"`;
  - delete routes reply with a fixed message;
  - the other routes reply with the payload itself.

Body keys are the `FieldName` enumeration. `WireName` gives each field's JSON
key, which is its own name (`Notes` is sent as `"notes"`), and
`WireNameInjective` shows that distinct fields get distinct keys. `WireBody`
turns a `Body` into the string-keyed dict the source sends, each field under
its key. `WireBodyInjective` shows that no two bodies are sent as the same
dict. "No other key is sent" is therefore a statement about which
`FieldName`s occur. The remote calls carry the `Body`. The two example
lemmas on task-list titles and on completing a task also state the dict that
is sent.

A remote failure is easily read as carrying the remote service's own
message. The code raises
`HTTPException(status_code=err.resp.status, detail=str(err))`. `str(err)` is
the client library's own rendering of the error, so the model treats the
detail as opaque text taken from the `HttpError`. It does not claim that the
detail equals the bare remote message.

## Model

| member | source | states |
|---|---|---|
| Models.TaskCreateFrom | fastapi_backend/main.py:31-37 | `title` is the given title; `notes`, `due`, `parent`, `previous` are `None` unless supplied; `status` is `"needsAction"` unless supplied; a supplied value (also an explicit null) is kept |
| Models.TaskUpdateFrom | fastapi_backend/main.py:39-46 | every field of the update is what the client supplied, and `None` when the client left it out |
| Models.WireNameInjective | fastapi_backend/main.py:173-219 | distinct fields are sent under distinct JSON keys |
| Payloads.WireBody | fastapi_backend/main.py:173-219 | the dict sent has a key `WireName(f)` exactly for the fields `f` of the body, mapped to that field's value, and no other key |
| Payloads.WireBodyInjective | fastapi_backend/main.py:173-219 | two bodies sent as the same string-keyed dict are the same body |
| Payloads.TaskListBody | fastapi_backend/main.py:123 | the task-list body has exactly the key `title`, mapped to the request's title |
| Payloads.CreateTaskBody | fastapi_backend/main.py:173-183 | `title` is always present with the request's title; each of `notes`, `due`, `parent`, `previous`, `status` is present exactly when the field is not `None`, with its value; `completed` is never sent |
| Payloads.BuildCreateTaskBody | fastapi_backend/main.py:173-183 | the in-place insertion chain of `create_task` produces exactly `CreateTaskBody(request)` |
| Payloads.UpdateTaskBody | fastapi_backend/main.py:205-219 | each of the seven fields is present exactly when it is not `None`, with its value, and nothing else is sent |
| Payloads.BuildUpdateTaskBody | fastapi_backend/main.py:205-219 | the in-place insertion chain of `update_task`, starting from `{}`, produces exactly `UpdateTaskBody(request)` |
| Payloads.UpdateBodyRoundTrip | fastapi_backend/main.py:205-219 | reading the fields back from an update's body gives the update again: absence is preserved in both directions |
| Payloads.UpdateBodyOnto | fastapi_backend/main.py:205-219 | every body is the body of the update read back from it, so update bodies and updates correspond one to one |
| Payloads.CreateBodyIsUpdateBody | fastapi_backend/main.py:173-219 | a create sends the same keys and values as the update that sets the same fields (title, notes, due, status, parent, previous) |
| Payloads.DefaultStatusSent | fastapi_backend/main.py:182-183 | a create with no `status` supplied sends `status: "needsAction"`; one with an explicit null sends no `status` |
| Payloads.UpdateSendsSuppliedFields | fastapi_backend/main.py:205-219 | a field is in the update body exactly when the client supplied it with a non-null value, and then carries that value |
| Payloads.EmptyUpdateSendsNothing | fastapi_backend/main.py:205 | an update with every field `None` sends the empty body |
| Service.GetGoogleService | fastapi_backend/main.py:72-100 | the client is obtained exactly when the token file is usable; otherwise status 500, with detail `tokens.json not found at <path>` or `Failed to create Google Tasks service: <error>` |
| Service.MissingTokensNamesPath | fastapi_backend/main.py:72-76 | a missing token file gives status 500 and a detail that contains the token path |
| Service.BuildFailureNamesError | fastapi_backend/main.py:96-100 | a failure to load the tokens or build the client gives status 500 and a detail that contains the underlying error |
| Routes.RemoteCall | fastapi_backend/main.py:108-231 | each route issues the remote operation of its own kind (list, insert, get, update, delete) on its own collection (task lists or tasks). It passes the path parameters of its URL in order: task list, then task. It carries a body exactly for inserts and updates: the title body for task lists, `CreateTaskBody` and `UpdateTaskBody` for tasks |
| Routes.CallDetermined | fastapi_backend/main.py:113-231 | a remote call is fixed by its operation, collection, path parameters and body |
| Routes.Shape | fastapi_backend/main.py:114-232 | a list route replies `items` (or `[]`) under its collection's name; a delete replies its collection's fixed message; exactly the get, insert and update routes reply the payload itself |
| Routes.Handle | fastapi_backend/main.py:108-234 | a client failure raises its 500 error; a remote `HttpError` raises the remote status and the error's text (`str(err)`); on success the list routes reply `{"tasklists" or "tasks": items or []}`, the deletes reply their fixed message, get/insert/update reply the payload itself |
| Routes.ServiceFailureSkipsRemote | fastapi_backend/main.py:111 | when the client cannot be obtained, the response does not depend on the remote service at all |
| Routes.DeleteIgnoresPayload | fastapi_backend/main.py:153-154 | a successful delete (task list here, task at lines 231-232) replies the same whatever payload the remote deletion returned |
| Routes.NotFoundSurfaces | fastapi_backend/main.py:115-116 | a remote 404 surfaces, on every route, as a 404 whose detail is the error's rendering, whatever that text is |
| Routes.ListWithoutItemsIsEmpty | fastapi_backend/main.py:114 | a list route (task lists here, tasks at line 164) whose payload has no `items` replies with the empty list |
| Routes.TaskListRoutesSendTitle | fastapi_backend/main.py:118-146 | `create_tasklist` and `update_tasklist` send exactly `{Title: request.title}`, which goes out as the dict `{"title": request.title}` |
| Routes.CompleteTaskRequest | fastapi_backend/main.py:200-224 | marking a task completed, and nothing else, issues `tasks.update` on the given ids with exactly `{Status: "completed"}`, which goes out as the dict `{"status": "completed"}` |

## Left out

- Reading the token file, parsing it, creating the credentials and building the client (lines 65-100). This is file I/O inside foreign libraries. Only the outcome is modelled: missing, unusable with a message, or usable. The default token endpoint at line 89 belongs to this part.
- The token path (lines 69-70) comes from the script's own location, so it is a parameter.
- The remote calls (`service.tasks().insert(...).execute()` and the rest) are network calls. The service is the parameter `remote`, so no property of the remote task store is modelled. In particular there is no "create, then get returns the same fields" round trip.
- Exceptions from a remote call other than `HttpError` are not caught by the routes. They propagate to the web framework and are not modelled.
- The `detail` of a remote error is `str(err)`, whose format the client library defines. It is opaque text carried by `HttpError`.
- Pydantic validation and FastAPI routing are not modelled. This covers a missing `title`, values that are not strings, and the rendering of an `HTTPException` as `{"detail": ...}`. The declared field defaults are modelled.
- Dict insertion order: a body is a `map`, so the order of keys in the JSON body is not modelled. It carries no meaning for the remote API.
- JSON numbers in remote payloads are integers. Floating point is not modelled.
- `read_root`, `health_check` (it reads the clock), the `uvicorn` start-up, the unused `SCOPES` and `InstalledAppFlow`, and the unused response models `TaskLink` and `TaskResponse` are not modelled.
- mcp_server/server.py is not part of this model. It only re-exposes the routes through `FastMCP.from_fastapi`.
