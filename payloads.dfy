/** The request bodies sent to the remote task API. A body is a dict from
    field names to strings; a field of the request model is copied under
    its own name only when it is not `None`. */
module Payloads {
  import opened Wrappers
  import opened Models

  type Body = map<FieldName, string>

  /** The body with the field copied in when it is not `None`. */
  function Put(body: Body, name: FieldName, field: Option<string>): Body
  {
    if field.Some? then body[name := field.value] else body
  }

  /** The string-keyed dict a body is sent as: each field under its JSON
      key. */
  function WireBody(b: Body): (w: map<string, string>)
    ensures w.Keys == set f | f in b :: WireName(f)
    ensures forall f: FieldName :: WireName(f) in w <==> f in b
    ensures forall f :: f in b ==> w[WireName(f)] == b[f]
  {
    WireNameInjective();
    map f | f in b :: WireName(f) := b[f]
  }

  /** Distinct bodies are sent as distinct dicts, so nothing is lost in
      keying bodies by `FieldName`. */
  lemma WireBodyInjective(a: Body, b: Body)
    requires WireBody(a) == WireBody(b)
    ensures a == b
  {
  }

  // ---------------------------------------------------------------------
  // create_tasklist and update_tasklist

  /** The body both task-list routes send: only the title. */
  function TaskListBody(title: string): (b: Body)
    ensures b.Keys == {Title}
    ensures b[Title] == title
  {
    map[Title := title]
  }

  // ---------------------------------------------------------------------
  // create_task

  /** The body `create_task` sends: `title` always, with the request's
      title; each of `notes`, `due`, `parent`, `previous` and `status`
      exactly when it is not `None`, with its value; nothing else. */
  function CreateTaskBody(c: TaskCreate): (b: Body)
    ensures Get(b, Title) == Some(c.title)
    ensures Get(b, Notes) == c.notes
    ensures Get(b, Due) == c.due
    ensures Get(b, Parent) == c.parent
    ensures Get(b, Previous) == c.previous
    ensures Get(b, Status) == c.status
    ensures Completed !in b
  {
    Put(Put(Put(Put(Put(map[Title := c.title], Notes, c.notes), Due, c.due),
      Parent, c.parent), Previous, c.previous), Status, c.status)
  }

  /** `create_task` starts from the title and inserts the present fields
      one at a time. */
  method BuildCreateTaskBody(request: TaskCreate) returns (body: Body)
    ensures body == CreateTaskBody(request)
  {
    body := map[Title := request.title];
    if request.notes.Some? {
      body := body[Notes := request.notes.value];
    }
    if request.due.Some? {
      body := body[Due := request.due.value];
    }
    if request.parent.Some? {
      body := body[Parent := request.parent.value];
    }
    if request.previous.Some? {
      body := body[Previous := request.previous.value];
    }
    if request.status.Some? {
      body := body[Status := request.status.value];
    }
  }

  // ---------------------------------------------------------------------
  // update_task

  /** The body `update_task` sends: each of its seven fields exactly when
      it is not `None`, with its value; nothing else. */
  function UpdateTaskBody(u: TaskUpdate): (b: Body)
    ensures Get(b, Title) == u.title
    ensures Get(b, Notes) == u.notes
    ensures Get(b, Due) == u.due
    ensures Get(b, Status) == u.status
    ensures Get(b, Completed) == u.completed
    ensures Get(b, Parent) == u.parent
    ensures Get(b, Previous) == u.previous
  {
    var partial := Put(Put(Put(map[], Title, u.title), Notes, u.notes), Due, u.due);
    assert Get(partial, Title) == u.title && Get(partial, Notes) == u.notes && Get(partial, Due) == u.due
      && partial.Keys <= {Title, Notes, Due};
    Put(Put(Put(Put(partial, Status, u.status), Completed, u.completed), Parent, u.parent), Previous, u.previous)
  }

  /** `update_task` starts from the empty dict and inserts the present
      fields one at a time. */
  method BuildUpdateTaskBody(request: TaskUpdate) returns (body: Body)
    ensures body == UpdateTaskBody(request)
  {
    body := map[];
    if request.title.Some? {
      body := body[Title := request.title.value];
    }
    if request.notes.Some? {
      body := body[Notes := request.notes.value];
    }
    if request.due.Some? {
      body := body[Due := request.due.value];
    }
    if request.status.Some? {
      body := body[Status := request.status.value];
    }
    if request.completed.Some? {
      body := body[Completed := request.completed.value];
    }
    if request.parent.Some? {
      body := body[Parent := request.parent.value];
    }
    if request.previous.Some? {
      body := body[Previous := request.previous.value];
    }
  }

  /** The update a body describes: each field read back from the body. */
  function UpdateFromBody(b: Body): TaskUpdate
  {
    TaskUpdate(Get(b, Title), Get(b, Notes), Get(b, Due), Get(b, Status),
      Get(b, Completed), Get(b, Parent), Get(b, Previous))
  }

  /** No information is lost: the update is recovered from its body, so
      an absent field is never sent as present or the other way round. */
  lemma UpdateBodyRoundTrip(u: TaskUpdate)
    ensures UpdateFromBody(UpdateTaskBody(u)) == u
  {
  }

  /** Every body is the body of exactly one update: the one read back
      from it. */
  lemma UpdateBodyOnto(b: Body)
    ensures UpdateTaskBody(UpdateFromBody(b)) == b
  {
    var back := UpdateTaskBody(UpdateFromBody(b));
    forall f ensures Get(back, f) == Get(b, f) {
      match f
      case Title =>
      case Notes =>
      case Due =>
      case Status =>
      case Completed =>
      case Parent =>
      case Previous =>
    }
    assert back.Keys == b.Keys by {
      forall f ensures f in back <==> f in b {
        assert Get(back, f) == Get(b, f);
      }
    }
    forall f | f in b ensures back[f] == b[f] {
      assert Get(back, f) == Get(b, f);
    }
  }

  /** The update that sets what a create sets. */
  function AsUpdate(c: TaskCreate): TaskUpdate
  {
    TaskUpdate(Some(c.title), c.notes, c.due, c.status, None, c.parent, c.previous)
  }

  /** Creating a task sends the same fields under the same names as the
      corresponding update, even though the two insert them in another
      order. */
  lemma CreateBodyIsUpdateBody(c: TaskCreate)
    ensures CreateTaskBody(c) == UpdateTaskBody(AsUpdate(c))
  {
  }

  /** A create whose `status` was not supplied sends `"needsAction"`; one
      with an explicit null sends no `status`. */
  lemma DefaultStatusSent(title: string, supplied: map<FieldName, Option<string>>)
    ensures Status !in supplied ==> Get(CreateTaskBody(TaskCreateFrom(title, supplied)), Status) == Some(DefaultStatus)
    ensures Status in supplied && supplied[Status] == None ==>
      Status !in CreateTaskBody(TaskCreateFrom(title, supplied))
  {
  }

  /** The body of an update holds exactly the non-null fields the client
      supplied. */
  lemma UpdateSendsSuppliedFields(supplied: map<FieldName, Option<string>>, f: FieldName)
    ensures f in UpdateTaskBody(TaskUpdateFrom(supplied)) <==> f in supplied && supplied[f].Some?
    ensures f in UpdateTaskBody(TaskUpdateFrom(supplied)) ==>
      UpdateTaskBody(TaskUpdateFrom(supplied))[f] == supplied[f].value
  {
  }

  /** An update with every field `None` sends the empty body. */
  lemma EmptyUpdateSendsNothing()
    ensures UpdateTaskBody(TaskUpdate(None, None, None, None, None, None, None)) == map[]
  {
  }
}
