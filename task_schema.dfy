/**
 * The Task schema: required paths, the status enumeration with its default,
 * the due-date default of one week after creation, and the timestamps.
 */
module TaskSchema {
  import opened Wrappers
  import opened External

  datatype Status = Pending | Ongoing | Completed

  function StatusName(s: Status): string {
    match s
    case Pending => "pending"
    case Ongoing => "ongoing"
    case Completed => "completed"
  }

  /** The enum validator: a string is a status exactly when it names one. */
  function ParseStatus(s: string): (r: Option<Status>)
    ensures r.Some? ==> StatusName(r.value) == s
    ensures r.None? ==> forall st :: StatusName(st) != s
  {
    if s == "pending" then Some(Pending)
    else if s == "ongoing" then Some(Ongoing)
    else if s == "completed" then Some(Completed)
    else None
  }

  /** The default due date is 7 days, in milliseconds, after the document is made. */
  const DefaultDueOffset := 7 * 24 * 60 * 60 * 1000

  /** The paths a request sets: everything but the id and the timestamps. */
  datatype Content = Content(
    title: string,
    description: string,
    status: Status,
    dueDate: int,
    category: ObjectId,
    user: ObjectId)

  /** A stored task; `createdAt` and `updatedAt` come from `timestamps: true`. */
  datatype Task = Task(id: ObjectId, content: Content, createdAt: int, updatedAt: int)

  /** The paths of a task document before validation; None stands for a path that was not given. */
  datatype Draft = Draft(
    title: string,
    description: string,
    status: Option<string>,
    dueDate: Option<int>,
    category: Option<ObjectId>,
    user: Option<ObjectId>)

  predicate ContentValid(c: Content) {
    c.title != "" && c.description != ""
  }

  /**
   * The schema applied to a draft at time `now`: the defaults fill a missing
   * status and due date, then every path is required and the status must be
   * one of the enumeration. None is a ValidationError.
   */
  function Validate(d: Draft, now: int): (r: Option<Content>)
    ensures r.Some? <==>
      && d.title != "" && d.description != ""
      && (d.status.None? || ParseStatus(d.status.value).Some?)
      && d.category.Some? && d.user.Some?
    ensures r.Some? ==> ContentValid(r.value)
    ensures r.Some? ==> && r.value.title == d.title && r.value.description == d.description
                        && r.value.category == d.category.value && r.value.user == d.user.value
    ensures r.Some? && d.status.None? ==> r.value.status == Pending
    ensures r.Some? && d.status.Some? ==> StatusName(r.value.status) == d.status.value
    ensures r.Some? && d.dueDate.None? ==> r.value.dueDate == now + 604800000
    ensures r.Some? && d.dueDate.Some? ==> r.value.dueDate == d.dueDate.value
  {
    var status := if d.status.Some? then ParseStatus(d.status.value) else Some(Pending);
    var due := if d.dueDate.Some? then d.dueDate.value else now + DefaultDueOffset;
    if d.title == "" || d.description == "" || status.None? || d.category.None? || d.user.None? then None
    else Some(Content(d.title, d.description, status.value, due, d.category.value, d.user.value))
  }

  /** The first save of a new task stamps both timestamps with the save time. */
  function Created(id: ObjectId, c: Content, now: int): Task {
    Task(id, c, now, now)
  }

  /**
   * A later save after `set(c)`: the id and `createdAt` stay; `updatedAt`
   * moves to the save time only when some path actually changed.
   */
  function Updated(t: Task, c: Content, now: int): Task {
    if c == t.content then t else Task(t.id, c, t.createdAt, now)
  }

  /** Saving the same content again moves nothing: `updatedAt` stays at the time of the last change. */
  lemma ResaveKeepsTimestamps(t: Task, c: Content, first: int, second: int)
    ensures Updated(Updated(t, c, first), c, second) == Updated(t, c, first)
  {
  }

  /**
   * With a clock that does not go back, every save keeps a task's
   * timestamps in order: created, then last updated, then now.
   */
  lemma SavesKeepTimestampsOrdered(id: ObjectId, t: Task, c: Content, now: int)
    ensures Created(id, c, now).createdAt <= Created(id, c, now).updatedAt <= now
    ensures t.createdAt <= t.updatedAt <= now ==>
      var r := Updated(t, c, now);
      r.id == t.id && r.createdAt == t.createdAt && t.updatedAt <= r.updatedAt <= now
  {
  }

  /** A save changes `updatedAt` exactly when it changes the content, and never touches id or `createdAt`. */
  lemma UpdatedMovesOnlyOnChange(t: Task, c: Content, now: int)
    requires t.updatedAt != now
    ensures Updated(t, c, now).updatedAt != t.updatedAt <==> c != t.content
    ensures Updated(t, c, now).content == c
    ensures Updated(t, c, now).id == t.id && Updated(t, c, now).createdAt == t.createdAt
  {
  }

  /** The task table's invariant: ids are the keys and the required strings are not empty. */
  ghost predicate TasksValid(tasks: map<ObjectId, Task>) {
    forall id :: id in tasks ==> tasks[id].id == id && ContentValid(tasks[id].content)
  }
}
