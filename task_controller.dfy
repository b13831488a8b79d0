/**
 * The task controller: list, create, update and delete, each scoped to the
 * calling user, over a store that maps task ids to saved tasks.
 */
module TaskController {
  import opened Wrappers
  import opened TaskModel

  /** A JSON response body: a payload, or an object with only a `message`. */
  datatype Body<T> = Data(value: T) | Message(text: string)

  /**
   * What a handler does with a request: send a response with a status and a
   * body, or let the schema's validation error escape to the framework.
   */
  datatype Reply<T> = Sent(status: nat, body: Body<T>) | Thrown(invalid: set<Path>) {
    predicate Succeeded() {
      Sent? && 200 <= status < 300
    }
  }

  const NotAuthorizedMessage: string := "Not authorized"
  const NotFoundMessage: string := "Task not found"
  const RemovedMessage: string := "Task removed"

  /** Every stored task sits under its own id. */
  predicate IdsMatch(m: map<TaskId, Task>) {
    forall k :: k in m ==> m[k].id == k
  }

  /**
   * The caller's tasks among the ids below `bound`, in id order (the order
   * in which they were inserted).
   */
  function OwnedBy(m: map<TaskId, Task>, caller: UserId, bound: nat): seq<Task>
    decreases bound
  {
    if bound == 0 then [] else OwnedBy(m, caller, bound - 1) + OwnEntry(m, caller, bound - 1)
  }

  /** The listing holds exactly the caller's stored tasks below the bound. */
  lemma {:induction false} OwnedMembers(m: map<TaskId, Task>, caller: UserId, bound: nat)
    requires IdsMatch(m)
    ensures forall t :: t in OwnedBy(m, caller, bound) <==>
      t.id < bound && t.id in m && m[t.id] == t && t.user == caller
  {
    if bound > 0 {
      OwnedMembers(m, caller, bound - 1);
    }
  }

  /** Each task's id is smaller than the ids of all the tasks after it. */
  predicate IdsIncreasing(ts: seq<Task>) {
    forall i, j :: 0 <= i < j < |ts| ==> ts[i].id < ts[j].id
  }

  /** The listing is in strictly increasing id order. */
  lemma {:induction false} OwnedSorted(m: map<TaskId, Task>, caller: UserId, bound: nat)
    requires IdsMatch(m)
    ensures IdsIncreasing(OwnedBy(m, caller, bound))
  {
    if bound > 0 {
      var k := bound - 1;
      var earlier, r := OwnedBy(m, caller, k), OwnedBy(m, caller, bound);
      OwnedSorted(m, caller, k);
      OwnedMembers(m, caller, k);
      assert r == earlier + OwnEntry(m, caller, k);
      forall i, j | 0 <= i < j < |r|
        ensures r[i].id < r[j].id
      {
        assert r[i] == earlier[i];
        if j < |earlier| {
          assert r[j] == earlier[j] && earlier[i].id < earlier[j].id;
        } else {
          assert earlier[i] in earlier && earlier[i].id < k;
          assert OwnEntry(m, caller, k) == [m[k]] && r[j] == m[k] && m[k].id == k;
        }
      }
    }
  }

  /** The task stored under `k`, as a one-element list if the caller owns it and as the empty list otherwise. */
  function OwnEntry(m: map<TaskId, Task>, caller: UserId, k: TaskId): seq<Task> {
    if k in m && m[k].user == caller then [m[k]] else []
  }

  /** The four `field = supplied || field` assignments of an update. */
  function Patch(t: Task, body: Fields): Task {
    t.(title := if Truthy(body.title) then body.title.value else t.title,
       description := if Truthy(body.description) then body.description else t.description,
       status := if Truthy(body.status) then body.status.value else t.status,
       priority := if Truthy(body.priority) then body.priority.value else t.priority)
  }

  /** An update keeps the id, the owner and both timestamps, and each field is either kept or the supplied value. */
  lemma PatchKeepsIdentity(t: Task, body: Fields)
    ensures var r := Patch(t, body);
      && r.id == t.id && r.user == t.user
      && r.createdAt == t.createdAt && r.updatedAt == t.updatedAt
      && (r.title == t.title || Some(r.title) == body.title)
      && (r.description == t.description || r.description == body.description)
      && (r.status == t.status || Some(r.status) == body.status)
      && (r.priority == t.priority || Some(r.priority) == body.priority)
  {
  }

  /** A body whose fields are all absent or empty changes nothing. */
  lemma EmptyPatchIsIdentity(t: Task, body: Fields)
    requires !Truthy(body.title) && !Truthy(body.description)
    requires !Truthy(body.status) && !Truthy(body.priority)
    ensures Patch(t, body) == t
  {
  }

  /** Applying the same body twice is the same as applying it once. */
  lemma PatchIdempotent(t: Task, body: Fields)
    ensures Patch(Patch(t, body), body) == Patch(t, body)
  {
  }

  /**
   * On a valid task an update can only fail validation on status or priority,
   * and it fails exactly when a supplied non-empty value is outside its enum.
   */
  lemma PatchValidation(t: Task, body: Fields)
    requires ValidTask(t)
    ensures Errors(DocOf(Patch(t, body))) <= {StatusPath, PriorityPath}
    ensures StatusPath in Errors(DocOf(Patch(t, body))) <==> Truthy(body.status) && body.status.value !in Statuses
    ensures PriorityPath in Errors(DocOf(Patch(t, body))) <==> Truthy(body.priority) && body.priority.value !in Priorities
  {
  }

  /** Every task of another user is still there, unchanged. */
  predicate OthersUntouched(before: map<TaskId, Task>, after: map<TaskId, Task>, caller: UserId) {
    forall k :: k in before && before[k].user != caller ==> k in after && after[k] == before[k]
  }

  /** No surviving task changed its owner, its id or its creation time. */
  predicate OwnersFixed(before: map<TaskId, Task>, after: map<TaskId, Task>) {
    forall k :: k in before && k in after ==>
      after[k].user == before[k].user && after[k].id == before[k].id && after[k].createdAt == before[k].createdAt
  }

  /** Every task sits under its own id below `nextId`, passed validation and was saved no later than `clock`. */
  predicate Consistent(tasks: map<TaskId, Task>, nextId: TaskId, clock: Time) {
    && IdsMatch(tasks)
    && forall k :: k in tasks ==> k < nextId && ValidTask(tasks[k]) && tasks[k].updatedAt <= clock
  }

  /** Overwriting a stored task with a valid task under the same id, saved no later than the clock, keeps the store consistent. */
  lemma ReplaceConsistent(tasks: map<TaskId, Task>, nextId: TaskId, clock: Time, clock': Time, t: Task)
    requires Consistent(tasks, nextId, clock) && clock <= clock'
    requires t.id in tasks && ValidTask(t) && t.updatedAt <= clock'
    ensures Consistent(tasks[t.id := t], nextId, clock')
  {
  }

  /** Overwriting one of the caller's tasks with a task of the same id, owner and creation time. */
  lemma ReplaceOwnTask(before: map<TaskId, Task>, caller: UserId, id: TaskId, t: Task)
    requires id in before && before[id].user == caller
    requires t.id == before[id].id && t.user == caller && t.createdAt == before[id].createdAt
    ensures OthersUntouched(before, before[id := t], caller)
    ensures OwnersFixed(before, before[id := t])
  {
  }

  /** The document that `createTask` builds: the owner is the caller, whatever the body holds. */
  function NewDoc(caller: UserId, body: Fields): Doc {
    Doc(Some(caller), body.title, body.description, body.status, body.priority)
  }

  class TaskStore {
    var tasks: map<TaskId, Task>
    /** The id the next created task gets; ids are never reused. */
    var nextId: TaskId
    /** The time of the latest save. */
    var clock: Time

    ghost predicate Valid()
      reads this
    {
      Consistent(tasks, nextId, clock)
    }

    constructor ()
      ensures Valid()
      ensures tasks == map[] && nextId == 0 && clock == 0
    {
      tasks := map[];
      nextId := 0;
      clock := 0;
    }

    /** GET /tasks: the caller's tasks and no one else's. */
    method GetTasks(caller: UserId) returns (reply: Reply<seq<Task>>)
      requires Valid()
      ensures reply.Sent? && reply.status == 200 && reply.body.Data?
      ensures reply.body.value == OwnedBy(tasks, caller, nextId)
      ensures forall t :: t in reply.body.value <==> t.id in tasks && tasks[t.id] == t && t.user == caller
      ensures forall i, j :: 0 <= i < j < |reply.body.value| ==> reply.body.value[i].id < reply.body.value[j].id
    {
      OwnedMembers(tasks, caller, nextId);
      OwnedSorted(tasks, caller, nextId);
      reply := Sent(200, Data(OwnedBy(tasks, caller, nextId)));
    }

    /** POST /tasks: a new task owned by the caller, or the schema's validation error. */
    method CreateTask(caller: UserId, body: Fields) returns (reply: Reply<Task>)
      requires Valid()
      modifies this
      ensures Valid()
      ensures OthersUntouched(old(tasks), tasks, caller) && OwnersFixed(old(tasks), tasks)
      ensures reply.Succeeded() <==> Save(NewDoc(caller, body), old(nextId), old(clock) + 1).Success?
      ensures reply.Succeeded() ==>
        var t := Save(NewDoc(caller, body), old(nextId), old(clock) + 1).value;
        && reply == Sent(201, Data(t))
        && t.user == caller
        && old(nextId) !in old(tasks)
        && tasks == old(tasks)[old(nextId) := t]
        && nextId == old(nextId) + 1
        && clock == old(clock) + 1
      ensures !reply.Succeeded() ==>
        && reply == Thrown(Save(NewDoc(caller, body), old(nextId), old(clock) + 1).error)
        && tasks == old(tasks) && nextId == old(nextId) && clock == old(clock)
    {
      var saved := Save(NewDoc(caller, body), nextId, clock + 1);
      if saved.Failure? {
        reply := Thrown(saved.error);
        return;
      }
      tasks := tasks[nextId := saved.value];
      nextId := nextId + 1;
      clock := clock + 1;
      reply := Sent(201, Data(saved.value));
    }

    /** PUT /tasks/:id: existence first, then ownership, then the truthy fields, then validation. */
    method UpdateTask(caller: UserId, id: TaskId, body: Fields) returns (reply: Reply<Task>)
      requires Valid()
      modifies this
      ensures Valid()
      ensures OthersUntouched(old(tasks), tasks, caller) && OwnersFixed(old(tasks), tasks)
      ensures nextId == old(nextId) && clock >= old(clock)
      ensures id !in old(tasks) ==>
        reply == Sent(404, Message(NotFoundMessage)) && tasks == old(tasks) && clock == old(clock)
      ensures id in old(tasks) && old(tasks)[id].user != caller ==>
        reply == Sent(401, Message(NotAuthorizedMessage)) && tasks == old(tasks) && clock == old(clock)
      ensures id in old(tasks) && old(tasks)[id].user == caller ==>
        var patched := Patch(old(tasks)[id], body);
        if Errors(DocOf(patched)) != {} then
          reply == Thrown(Errors(DocOf(patched))) && tasks == old(tasks) && clock == old(clock)
        else if patched == old(tasks)[id] then
          reply == Sent(200, Data(patched)) && tasks == old(tasks) && clock == old(clock)
        else
          && clock == old(clock) + 1
          && reply == Sent(200, Data(patched.(updatedAt := clock)))
          && tasks == old(tasks)[id := patched.(updatedAt := clock)]
    {
      if id !in tasks {
        reply := Sent(404, Message(NotFoundMessage));
        return;
      }
      var task := tasks[id];
      if task.user != caller {
        reply := Sent(401, Message(NotAuthorizedMessage));
        return;
      }
      task := task.(title := if Truthy(body.title) then body.title.value else task.title);
      task := task.(description := if Truthy(body.description) then body.description else task.description);
      task := task.(status := if Truthy(body.status) then body.status.value else task.status);
      task := task.(priority := if Truthy(body.priority) then body.priority.value else task.priority);
      assert task == Patch(tasks[id], body);
      var saved := SaveExisting(task);
      match saved {
        case Failure(errs) =>
          reply := Thrown(errs);
        case Success(t) =>
          if t != old(tasks)[id] {
            ReplaceOwnTask(old(tasks), caller, id, t);
          }
          reply := Sent(200, Data(t));
      }
    }

    /**
     * `task.save()` on a document already stored: validation first; then
     * `updatedAt` is refreshed only when some path was modified.
     */
    method SaveExisting(task: Task) returns (r: Result<Task, set<Path>>)
      requires Valid() && task.id in tasks
      requires task.user == tasks[task.id].user && task.createdAt == tasks[task.id].createdAt
      requires task.updatedAt == tasks[task.id].updatedAt
      modifies this
      ensures Valid() && nextId == old(nextId)
      ensures Errors(DocOf(task)) != {} ==>
        r == Failure(Errors(DocOf(task))) && tasks == old(tasks) && clock == old(clock)
      ensures Errors(DocOf(task)) == {} && task == old(tasks)[task.id] ==>
        r == Success(task) && tasks == old(tasks) && clock == old(clock)
      ensures Errors(DocOf(task)) == {} && task != old(tasks)[task.id] ==>
        && clock == old(clock) + 1
        && r == Success(task.(updatedAt := clock))
        && tasks == old(tasks)[task.id := r.value]
    {
      var errs := Errors(DocOf(task));
      if errs != {} {
        return Failure(errs);
      }
      if task == tasks[task.id] {
        return Success(task);
      }
      clock := clock + 1;
      var t := task.(updatedAt := clock);
      ReplaceConsistent(tasks, nextId, old(clock), clock, t);
      tasks := tasks[t.id := t];
      r := Success(t);
    }

    /** DELETE /tasks/:id: the same two checks, then exactly that one task is removed. */
    method DeleteTask(caller: UserId, id: TaskId) returns (reply: Reply<()>)
      requires Valid()
      modifies this
      ensures Valid()
      ensures OthersUntouched(old(tasks), tasks, caller) && OwnersFixed(old(tasks), tasks)
      ensures nextId == old(nextId) && clock == old(clock)
      ensures id !in old(tasks) ==> reply == Sent(404, Message(NotFoundMessage)) && tasks == old(tasks)
      ensures id in old(tasks) && old(tasks)[id].user != caller ==>
        reply == Sent(401, Message(NotAuthorizedMessage)) && tasks == old(tasks)
      ensures id in old(tasks) && old(tasks)[id].user == caller ==>
        reply == Sent(200, Message(RemovedMessage)) && tasks == old(tasks) - {id}
    {
      if id !in tasks {
        reply := Sent(404, Message(NotFoundMessage));
        return;
      }
      if tasks[id].user != caller {
        reply := Sent(401, Message(NotAuthorizedMessage));
        return;
      }
      tasks := tasks - {id};
      reply := Sent(200, Message(RemovedMessage));
    }
  }

  /** Deleting the same id twice: the second call finds nothing. */
  method DeleteTwice(store: TaskStore, caller: UserId, id: TaskId) returns (first: Reply<()>, second: Reply<()>)
    requires store.Valid()
    modifies store
    ensures store.Valid()
    ensures first.Succeeded() ==> second == Sent(404, Message(NotFoundMessage)) && id !in store.tasks
  {
    first := store.DeleteTask(caller, id);
    if first.Succeeded() {
      second := store.DeleteTask(caller, id);
    } else {
      second := first;
    }
  }

  /**
   * Create, then update the new task with an empty body: the update answers
   * with the task exactly as created, `updatedAt` included, since no path
   * was modified.
   */
  method CreateThenEmptyUpdate(store: TaskStore, caller: UserId, body: Fields) returns (created: Reply<Task>, updated: Reply<Task>)
    requires store.Valid()
    modifies store
    ensures store.Valid()
    ensures created.Succeeded() ==> created.body.Data? && updated == Sent(200, Data(created.body.value))
  {
    created := store.CreateTask(caller, body);
    if created.Succeeded() {
      var t := created.body.value;
      EmptyPatchIsIdentity(t, Fields(None, None, None, None));
      SavedTaskRevalidates(t);
      updated := store.UpdateTask(caller, t.id, Fields(None, None, None, None));
    } else {
      updated := created;
    }
  }
}
