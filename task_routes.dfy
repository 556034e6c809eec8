/**
 * The /tasks router: create, list with filters, read, patch and delete.
 * Request fields arrive as strings, an absent one as "". Mongoose's casts
 * of a string to an ObjectId or a Date are the `castObjectId` and
 * `castDate` of the libraries; a failed cast is a CastError. No handler
 * compares a task's owner with the requester.
 */
module TaskRoutes {
  import opened Wrappers
  import opened External
  import opened TaskSchema
  import opened Database
  import opened Http

  const AllFieldsRequired := "All fields are required"

  /** The validators of POST /tasks and PATCH /tasks/:id, in the order they are declared. */
  function TaskValidation(libs: Libraries, title: string, description: string, status: string,
                          dueDate: string, category: string): (errs: seq<string>)
    ensures errs == [] <==>
      && title != "" && description != "" && ParseStatus(status).Some?
      && libs.isISO8601(dueDate) && libs.isMongoId(category)
    ensures "Invalid status" in errs <==> ParseStatus(status).None?
  {
    (if title == "" then ["Title is required"] else []) +
    (if description == "" then ["Description is required"] else []) +
    (if ParseStatus(status).Some? then [] else ["Invalid status"]) +
    (if libs.isISO8601(dueDate) then [] else ["Invalid dueDate"]) +
    (if libs.isMongoId(category) then [] else ["Invalid category"])
  }

  /**
   * POST /tasks. The owner is always the requester. The document gets a
   * fresh id; a failed cast of the due date or the category makes the save
   * fail, which ends in a 500. The reply is 200, not 201.
   */
  method Create(db: Store, libs: Libraries, now: int, userId: ObjectId,
                title: string, description: string, status: string, dueDate: string, category: string)
    returns (resp: Response)
    requires db.Valid()
    modifies db
    ensures db.Valid()
    ensures db.users == old(db.users) && db.categories == old(db.categories)
    ensures
      var errs := TaskValidation(libs, title, description, status, dueDate, category);
      if errs != [] then
        resp == Response(400, Errors(errs)) && db.tasks == old(db.tasks)
      else if title == "" || description == "" || status == "" || dueDate == "" || category == "" then
        resp == Response(400, Message(AllFieldsRequired)) && db.tasks == old(db.tasks)
      else if libs.castDate(dueDate).None? || libs.castObjectId(category).None? then
        resp == ServerError && db.tasks == old(db.tasks)
      else
        && resp.status == 200 && resp.body.TaskReply? && resp.body.text == "Task created"
        && var t := resp.body.task;
        && t.id == NewObjectId(old(db.tasks).Keys) && t.id !in old(db.tasks)
        && db.tasks == old(db.tasks)[t.id := t]
        && t.content.title == title && t.content.description == description
        && StatusName(t.content.status) == status
        && Some(t.content.dueDate) == libs.castDate(dueDate)
        && Some(t.content.category) == libs.castObjectId(category)
        && t.content.user == userId
        && t.createdAt == now && t.updatedAt == now
    ensures libs.RejectsEmpty() ==> resp.body != Message(AllFieldsRequired)
  {
    var errs := TaskValidation(libs, title, description, status, dueDate, category);
    if errs != [] {
      return Response(400, Errors(errs));
    }
    if title == "" || description == "" || status == "" || dueDate == "" || category == "" {
      return Response(400, Message(AllFieldsRequired));
    }
    var due := libs.castDate(dueDate);
    var cat := libs.castObjectId(category);
    if due.None? || cat.None? {
      return ServerError;
    }
    var content := Validate(Draft(title, description, Some(status), Some(due.value), Some(cat.value), Some(userId)), now);
    if content.None? {
      return ServerError;
    }
    var task := Created(NewObjectId(db.tasks.Keys), content.value, now);
    var ok := db.InsertTask(task);
    if !ok {
      return ServerError;
    }
    resp := Response(200, TaskReply("Task created", task));
  }

  /** The filters of GET /tasks as the handler builds them: only the query parameters that were given. */
  datatype Query = Query(category: Option<string>, status: Option<string>, dueDate: Option<string>)

  /** A task's content satisfies every filter of the query, once the filter values are cast. */
  predicate Matches(libs: Libraries, q: Query, c: Content) {
    && (q.category.Some? ==> libs.castObjectId(q.category.value) == Some(c.category))
    && (q.status.Some? ==> StatusName(c.status) == q.status.value)
    && (q.dueDate.Some? ==> libs.castDate(q.dueDate.value) == Some(c.dueDate))
  }

  /** Task.find(query): the matching tasks, or None when a filter value does not cast. */
  function Find(libs: Libraries, tasks: map<ObjectId, Task>, q: Query): (r: Option<map<ObjectId, Task>>)
    ensures r.None? <==>
      (q.category.Some? && libs.castObjectId(q.category.value).None?) ||
      (q.dueDate.Some? && libs.castDate(q.dueDate.value).None?)
    ensures r.Some? ==> forall id :: id in r.value <==> id in tasks && Matches(libs, q, tasks[id].content)
    ensures r.Some? ==> forall id :: id in r.value ==> r.value[id] == tasks[id]
  {
    if (q.category.Some? && libs.castObjectId(q.category.value).None?) ||
       (q.dueDate.Some? && libs.castDate(q.dueDate.value).None?)
    then None
    else Some(map id | id in tasks && Matches(libs, q, tasks[id].content) :: tasks[id])
  }

  /** With no filter given, every task is found. */
  lemma FindWithoutFilters(libs: Libraries, tasks: map<ObjectId, Task>)
    ensures Find(libs, tasks, Query(None, None, None)) == Some(tasks)
  {
    var q := Query(None, None, None);
    assert forall id | id in tasks :: Matches(libs, q, tasks[id].content);
    var r := Find(libs, tasks, q).value;
    assert r.Keys == tasks.Keys;
    assert r == tasks;
  }

  /** A task selected by the query parameters of GET /tasks: it agrees with each one that is not empty. */
  predicate Selected(libs: Libraries, categoryId: string, status: string, dueDate: string, c: Content) {
    && (categoryId != "" ==> libs.castObjectId(categoryId) == Some(c.category))
    && (status != "" ==> StatusName(c.status) == status)
    && (dueDate != "" ==> libs.castDate(dueDate) == Some(c.dueDate))
  }

  /**
   * GET /tasks. The declared validators are never consulted; a filter value
   * that does not cast ends in a 500. Every user's tasks are searched.
   */
  method List(db: Store, libs: Libraries, categoryId: string, status: string, dueDate: string)
    returns (resp: Response)
    ensures
      if (categoryId != "" && libs.castObjectId(categoryId).None?) || (dueDate != "" && libs.castDate(dueDate).None?) then
        resp == ServerError
      else if forall id :: id in db.tasks ==> !Selected(libs, categoryId, status, dueDate, db.tasks[id].content) then
        resp == Response(404, Message("No tasks found"))
      else
        && resp.status == 200 && resp.body.TaskPage? && resp.body.text == "Tasks fetched"
        && (forall id :: id in resp.body.tasks <==> id in db.tasks && Selected(libs, categoryId, status, dueDate, db.tasks[id].content))
        && (forall id :: id in resp.body.tasks ==> resp.body.tasks[id] == db.tasks[id])
  {
    var query := Query(None, None, None);
    if categoryId != "" {
      query := query.(category := Some(categoryId));
    }
    if status != "" {
      query := query.(status := Some(status));
    }
    if dueDate != "" {
      query := query.(dueDate := Some(dueDate));
    }
    var found := Find(libs, db.tasks, query);
    if found.None? {
      return ServerError;
    }
    assert forall id :: id in db.tasks ==> (Matches(libs, query, db.tasks[id].content) <==> Selected(libs, categoryId, status, dueDate, db.tasks[id].content));
    if found.value == map[] {
      assert forall id :: id in db.tasks ==> id !in found.value;
      return Response(404, Message("No tasks found"));
    }
    resp := Response(200, TaskPage("Tasks fetched", found.value));
  }

  /** GET /tasks/:id: the task with that id, whoever owns it. */
  method Get(db: Store, libs: Libraries, id: string) returns (resp: Response)
    ensures
      if libs.castObjectId(id).None? then
        resp == ServerError
      else if libs.castObjectId(id).value !in db.tasks then
        resp == Response(404, Message("Task not found"))
      else
        resp == Response(200, TaskReply("Task fetched", db.tasks[libs.castObjectId(id).value]))
  {
    var key := libs.castObjectId(id);
    if key.None? {
      return ServerError;
    }
    if key.value !in db.tasks {
      return Response(404, Message("Task not found"));
    }
    resp := Response(200, TaskReply("Task fetched", db.tasks[key.value]));
  }

  /**
   * PATCH /tasks/:id. All five fields are set and the owner becomes the
   * requester. A CastError on the id goes to `next` (500); a failed cast
   * of the new due date or category surfaces as a ValidationError when the
   * document is validated, which the handler answers with 400.
   */
  method Patch(db: Store, libs: Libraries, now: int, userId: ObjectId, id: string,
               title: string, description: string, status: string, dueDate: string, category: string)
    returns (resp: Response)
    requires db.Valid()
    modifies db
    ensures db.Valid()
    ensures db.users == old(db.users) && db.categories == old(db.categories)
    ensures
      var errs := TaskValidation(libs, title, description, status, dueDate, category);
      var key := libs.castObjectId(id);
      if errs != [] then
        resp == Response(400, Errors(errs)) && db.tasks == old(db.tasks)
      else if title == "" || description == "" || status == "" || dueDate == "" || category == "" then
        resp == Response(400, Message(AllFieldsRequired)) && db.tasks == old(db.tasks)
      else if key.None? then
        resp == ServerError && db.tasks == old(db.tasks)
      else if key.value !in old(db.tasks) then
        resp == Response(404, Message("Task not found")) && db.tasks == old(db.tasks)
      else if libs.castDate(dueDate).None? || libs.castObjectId(category).None? then
        resp == Response(400, Invalid) && db.tasks == old(db.tasks)
      else
        && resp == Response(200, Message("Task updated"))
        && key.value in db.tasks
        && db.tasks == old(db.tasks)[key.value := db.tasks[key.value]]
        && var before, t := old(db.tasks)[key.value], db.tasks[key.value];
        && t.id == before.id && t.createdAt == before.createdAt
        && t.content.title == title && t.content.description == description
        && StatusName(t.content.status) == status
        && Some(t.content.dueDate) == libs.castDate(dueDate)
        && Some(t.content.category) == libs.castObjectId(category)
        && t.content.user == userId
        && t.updatedAt == if t.content == before.content then before.updatedAt else now
    ensures libs.RejectsEmpty() ==> resp.body != Message(AllFieldsRequired)
  {
    var errs := TaskValidation(libs, title, description, status, dueDate, category);
    if errs != [] {
      return Response(400, Errors(errs));
    }
    if title == "" || description == "" || status == "" || dueDate == "" || category == "" {
      return Response(400, Message(AllFieldsRequired));
    }
    var key := libs.castObjectId(id);
    if key.None? {
      return ServerError;
    }
    if key.value !in db.tasks {
      return Response(404, Message("Task not found"));
    }
    var task := db.tasks[key.value];
    // task.set(...) then task.validate()
    var due := libs.castDate(dueDate);
    var cat := libs.castObjectId(category);
    if due.None? || cat.None? {
      return Response(400, Invalid);
    }
    var content := Validate(Draft(title, description, Some(status), Some(due.value), Some(cat.value), Some(userId)), now);
    if content.None? {
      return Response(400, Invalid);
    }
    db.ReplaceTask(Updated(task, content.value, now));
    resp := Response(200, Message("Task updated"));
  }

  /** DELETE /tasks/:id: removes the task if there is one, and says so either way. */
  method Delete(db: Store, libs: Libraries, id: string) returns (resp: Response)
    requires db.Valid()
    modifies db
    ensures db.Valid()
    ensures db.users == old(db.users) && db.categories == old(db.categories)
    ensures
      if libs.castObjectId(id).None? then
        resp == ServerError && db.tasks == old(db.tasks)
      else
        resp == Response(200, Message("Task deleted")) && db.tasks == old(db.tasks) - {libs.castObjectId(id).value}
  {
    var key := libs.castObjectId(id);
    if key.None? {
      return ServerError;
    }
    var _ := db.DeleteTask(key.value);
    resp := Response(200, Message("Task deleted"));
  }
}
