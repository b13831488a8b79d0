/**
 * The task schema: the fields a stored task has, which of them are required,
 * the enumerated values of status and priority with their defaults, and the
 * timestamps every saved task carries.
 */
module TaskModel {
  import opened Wrappers

  type UserId = nat
  type TaskId = nat
  /** A timestamp, abstracted to a monotone counter. */
  type Time = nat

  /** The schema paths a validation error can name. */
  datatype Path = UserPath | TitlePath | StatusPath | PriorityPath

  /** The fields a request body may carry; `None` is a field the body leaves out. */
  datatype Fields = Fields(
    title: Option<string>,
    description: Option<string>,
    status: Option<string>,
    priority: Option<string>)

  /** A document before it is saved: any path may still be missing. */
  datatype Doc = Doc(
    user: Option<UserId>,
    title: Option<string>,
    description: Option<string>,
    status: Option<string>,
    priority: Option<string>)

  /** A saved task; `description` is the only path a saved task may lack. */
  datatype Task = Task(
    id: TaskId,
    user: UserId,
    title: string,
    description: Option<string>,
    status: string,
    priority: string,
    createdAt: Time,
    updatedAt: Time)

  const Statuses: set<string> := {"pending", "in-progress", "completed"}
  const Priorities: set<string> := {"low", "medium", "high"}
  const DefaultStatus: string := "pending"
  const DefaultPriority: string := "medium"

  /**
   * Present and not the empty string: JavaScript truthiness of an optional
   * string, and also what a `required` string path accepts.
   */
  predicate Truthy(v: Option<string>) {
    v.Some? && v.value != ""
  }

  /** A required path with an `enum`: present and one of the listed values. */
  predicate InEnum(v: Option<string>, values: set<string>) {
    v.Some? && v.value in values
  }

  /** Defaults fill only the paths that are missing. */
  function WithDefaults(d: Doc): Doc {
    d.(status := if d.status.None? then Some(DefaultStatus) else d.status,
       priority := if d.priority.None? then Some(DefaultPriority) else d.priority)
  }

  /** The paths whose validators fail on `d`. */
  function Errors(d: Doc): set<Path> {
    (if d.user.None? then {UserPath} else {})
    + (if !Truthy(d.title) then {TitlePath} else {})
    + (if !InEnum(d.status, Statuses) then {StatusPath} else {})
    + (if !InEnum(d.priority, Priorities) then {PriorityPath} else {})
  }

  /** What the schema guarantees of every task it lets through. */
  predicate ValidTask(t: Task) {
    && t.title != ""
    && t.status in Statuses
    && t.priority in Priorities
    && t.createdAt <= t.updatedAt
  }

  /** A supplied-or-omitted enum value that creation accepts. */
  predicate Acceptable(v: Option<string>, values: set<string>) {
    v.None? || v.value in values
  }

  /**
   * Saving a new document: defaults first, then validation; on success the
   * task gets the id and both timestamps from the store.
   */
  function Save(d: Doc, id: TaskId, now: Time): (r: Result<Task, set<Path>>)
    ensures r.Success? <==>
      && d.user.Some?
      && Truthy(d.title)
      && Acceptable(d.status, Statuses)
      && Acceptable(d.priority, Priorities)
    ensures r.Failure? ==> r.error != {}
    ensures r.Success? ==>
      && ValidTask(r.value)
      && r.value.id == id
      && r.value.user == d.user.value
      && r.value.title == d.title.value
      && r.value.description == d.description
      && r.value.status == d.status.GetOr(DefaultStatus)
      && r.value.priority == d.priority.GetOr(DefaultPriority)
      && r.value.createdAt == r.value.updatedAt == now
  {
    var full := WithDefaults(d);
    var errs := Errors(full);
    if errs != {} then Failure(errs)
    else Success(Task(id, full.user.value, full.title.value, full.description,
                      full.status.value, full.priority.value, now, now))
  }

  /** The document a saved task is re-validated as when it is saved again. */
  function DocOf(t: Task): Doc {
    Doc(Some(t.user), Some(t.title), t.description, Some(t.status), Some(t.priority))
  }

  /** A missing or empty title is rejected, naming the title path. */
  lemma MissingTitleRejected(d: Doc, id: TaskId, now: Time)
    requires !Truthy(d.title)
    ensures Save(d, id, now).Failure? && TitlePath in Save(d, id, now).error
  {
  }

  /** A document without an owner is rejected, naming the user path. */
  lemma MissingOwnerRejected(d: Doc, id: TaskId, now: Time)
    requires d.user.None?
    ensures Save(d, id, now).Failure? && UserPath in Save(d, id, now).error
  {
  }

  /** A supplied status or priority outside its enum is rejected, naming that path. */
  lemma UnknownEnumRejected(d: Doc, id: TaskId, now: Time)
    requires (d.status.Some? && d.status.value !in Statuses)
          || (d.priority.Some? && d.priority.value !in Priorities)
    ensures Save(d, id, now).Failure?
    ensures d.status.Some? && d.status.value !in Statuses ==> StatusPath in Save(d, id, now).error
    ensures d.priority.Some? && d.priority.value !in Priorities ==> PriorityPath in Save(d, id, now).error
  {
  }

  /** Omitted status and priority take their defaults, and a task may be saved without a description. */
  lemma OmittedFieldsDefault(user: UserId, title: string, id: TaskId, now: Time)
    requires title != ""
    ensures var r := Save(Doc(Some(user), Some(title), None, None, None), id, now);
      && r.Success?
      && r.value.status == "pending"
      && r.value.priority == "medium"
      && r.value.description.None?
  {
  }

  /** A saved task passes validation again unchanged: saving never fails on what it already let through. */
  lemma SavedTaskRevalidates(t: Task)
    requires ValidTask(t)
    ensures Errors(DocOf(t)) == {}
  {
  }
}
