/** The request models of the service (its Pydantic classes) and the JSON
    values the remote task API returns. */
module Models {
  import opened Wrappers

  /** A JSON value as returned by the remote API. Numbers are integers
      here. */
  datatype Json =
    | JNull
    | JBool(b: bool)
    | JNumber(n: int)
    | JString(s: string)
    | JArray(elems: seq<Json>)
    | JObject(members: map<string, Json>)

  /** Body of POST /tasklists: `title` is required. */
  datatype TaskListCreate = TaskListCreate(title: string)

  /** Body of PUT /tasklists/{id}: `title` is required. */
  datatype TaskListUpdate = TaskListUpdate(title: string)

  /** Body of POST /tasklists/{id}/tasks: `title` is required, the rest
      optional. */
  datatype TaskCreate = TaskCreate(
    title: string,
    notes: Option<string>,
    due: Option<string>,
    parent: Option<string>,
    previous: Option<string>,
    status: Option<string>)

  /** Body of PUT /tasklists/{id}/tasks/{tid}: every field optional. */
  datatype TaskUpdate = TaskUpdate(
    title: Option<string>,
    notes: Option<string>,
    due: Option<string>,
    status: Option<string>,
    completed: Option<string>,
    parent: Option<string>,
    previous: Option<string>)

  /** The fields a request body can carry. */
  datatype FieldName = Title | Notes | Due | Status | Completed | Parent | Previous

  /** The JSON key a field is sent under: its own name. */
  function WireName(f: FieldName): string
  {
    match f
    case Title => "title"
    case Notes => "notes"
    case Due => "due"
    case Status => "status"
    case Completed => "completed"
    case Parent => "parent"
    case Previous => "previous"
  }

  /** Distinct fields are sent under distinct keys, so a body keyed by
      `FieldName` is a body keyed by strings. */
  lemma WireNameInjective()
    ensures forall f, g :: WireName(f) == WireName(g) ==> f == g
  {
  }

  /** The declared default of `TaskCreate.status`, and the other status
      value of the remote API. */
  const DefaultStatus := "needsAction"
  const CompletedStatus := "completed"

  /** The value a model field takes: what the client supplied (a string,
      or `None` for an explicit JSON null), else the declared default.
      `supplied` maps the fields the client sent to their values. */
  function FieldOr(supplied: map<FieldName, Option<string>>, f: FieldName, default: Option<string>): Option<string>
  {
    GetOr(supplied, f, default)
  }

  /** The `TaskCreate` a client gets from the required `title` and the
      optional fields it supplied: an optional field left out is `None`,
      except `status`, which is `"needsAction"`; a field supplied (also as
      an explicit null) keeps what was supplied. */
  function TaskCreateFrom(title: string, supplied: map<FieldName, Option<string>>): (c: TaskCreate)
    ensures c.title == title
    ensures Status !in supplied ==> c.status == Some(DefaultStatus)
    ensures Status in supplied ==> c.status == supplied[Status]
    ensures c.notes == (if Notes in supplied then supplied[Notes] else None)
    ensures c.due == (if Due in supplied then supplied[Due] else None)
    ensures c.parent == (if Parent in supplied then supplied[Parent] else None)
    ensures c.previous == (if Previous in supplied then supplied[Previous] else None)
  {
    TaskCreate(
      title,
      FieldOr(supplied, Notes, None),
      FieldOr(supplied, Due, None),
      FieldOr(supplied, Parent, None),
      FieldOr(supplied, Previous, None),
      FieldOr(supplied, Status, Some(DefaultStatus)))
  }

  /** The field of a `TaskUpdate` that has the given name. */
  function UpdateFieldOf(u: TaskUpdate, f: FieldName): Option<string>
  {
    match f
    case Title => u.title
    case Notes => u.notes
    case Due => u.due
    case Status => u.status
    case Completed => u.completed
    case Parent => u.parent
    case Previous => u.previous
  }

  /** The `TaskUpdate` a client gets from the fields it supplied: a field
      left out is `None`, a field supplied keeps what was supplied. */
  function TaskUpdateFrom(supplied: map<FieldName, Option<string>>): (u: TaskUpdate)
    ensures forall f :: f in supplied ==> UpdateFieldOf(u, f) == supplied[f]
    ensures forall f :: f !in supplied ==> UpdateFieldOf(u, f) == None
  {
    TaskUpdate(
      FieldOr(supplied, Title, None),
      FieldOr(supplied, Notes, None),
      FieldOr(supplied, Due, None),
      FieldOr(supplied, Status, None),
      FieldOr(supplied, Completed, None),
      FieldOr(supplied, Parent, None),
      FieldOr(supplied, Previous, None))
  }
}
