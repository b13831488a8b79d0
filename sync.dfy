/**
 * The client hook talking to the task controller. Each operation is one
 * request and its reply; the cache applies the reply as the hook does. The
 * invariant proved here is that, for a single user, the cache holds exactly
 * what listing the store would return, in the same order.
 */
module Sync {
  import opened Wrappers
  import opened TaskModel
  import opened Sequences
  import opened TaskController
  import opened UseTasks

  /** The `message` of an error response, if the server sent one. */
  function RejectionMessage<T>(r: Reply<T>): Option<string> {
    if r.Sent? && r.body.Message? then Some(r.body.text) else None
  }

  /** What the client receives for a reply whose success carries data. */
  function Received<T>(r: Reply<T>): (a: ApiResult<T>)
    requires r.Succeeded() ==> r.body.Data?
    ensures a.Resolved? <==> r.Succeeded()
    ensures a.Resolved? ==> a.data == r.body.value
  {
    if r.Succeeded() then Resolved(r.body.value) else Rejected(RejectionMessage(r))
  }

  /** What the client receives for a reply whose success carries only a message. */
  function Acknowledged(r: Reply<()>): (a: ApiResult<()>)
    ensures a.Resolved? <==> r.Succeeded()
  {
    if r.Succeeded() then Resolved(()) else Rejected(RejectionMessage(r))
  }

  /** Listing depends only on the ids below the bound. */
  lemma {:induction false} OwnedFrame(m: map<TaskId, Task>, m': map<TaskId, Task>, caller: UserId, bound: nat)
    requires forall k :: k < bound ==> (k in m <==> k in m') && (k in m ==> m[k] == m'[k])
    ensures OwnedBy(m', caller, bound) == OwnedBy(m, caller, bound)
  {
    if bound > 0 {
      OwnedFrame(m, m', caller, bound - 1);
    }
  }

  /** Creating under a fresh id puts the new task at the end of its owner's listing. */
  lemma OwnedInsert(m: map<TaskId, Task>, caller: UserId, n: nat, t: Task)
    requires IdsMatch(m) && forall k :: k in m ==> k < n
    requires t.id == n && t.user == caller
    ensures IdsMatch(m[n := t])
    ensures OwnedBy(m[n := t], caller, n + 1) == OwnedBy(m, caller, n) + [t]
  {
    OwnedFrame(m, m[n := t], caller, n);
  }

  /** One step of the listing: the ids below `bound - 1`, then `bound - 1` itself if the caller owns it. */
  lemma OwnedStep(m: map<TaskId, Task>, caller: UserId, bound: nat)
    requires bound > 0
    ensures OwnedBy(m, caller, bound) == OwnedBy(m, caller, bound - 1) + OwnEntry(m, caller, bound - 1)
  {
  }

  /** An empty store lists nothing. */
  lemma {:induction false} OwnedEmpty(caller: UserId, bound: nat)
    ensures OwnedBy(map[], caller, bound) == []
  {
    if bound > 0 {
      OwnedEmpty(caller, bound - 1);
    }
  }

  /** Replacing one of the caller's tasks in the store is replacing it in the listing. */
  lemma {:induction false} OwnedReplace(m: map<TaskId, Task>, caller: UserId, bound: nat, id: TaskId, t: Task)
    requires IdsMatch(m) && id in m && m[id].user == caller
    requires t.id == id && t.user == caller
    ensures IdsMatch(m[id := t])
    ensures OwnedBy(m[id := t], caller, bound) == ReplaceById(OwnedBy(m, caller, bound), id, t)
  {
    var m' := m[id := t];
    assert IdsMatch(m');
    if bound > 0 {
      var k := bound - 1;
      var f := Replacing(id, t);
      var tail, tail' := OwnEntry(m, caller, k), OwnEntry(m', caller, k);
      calc {
        OwnedBy(m', caller, bound);
        { OwnedStep(m', caller, bound); }
        OwnedBy(m', caller, k) + tail';
        { OwnedReplace(m, caller, k, id, t); }
        Map(OwnedBy(m, caller, k), f) + tail';
        { if tail != [] { MapSingleton(m[k], f); } }
        Map(OwnedBy(m, caller, k), f) + Map(tail, f);
        { MapAppend(OwnedBy(m, caller, k), tail, f); }
        Map(OwnedBy(m, caller, k) + tail, f);
        { OwnedStep(m, caller, bound); assert OwnedBy(m, caller, k) + tail == OwnedBy(m, caller, bound); }
        Map(OwnedBy(m, caller, bound), f);
        ReplaceById(OwnedBy(m, caller, bound), id, t);
      }
    }
  }

  /** Removing an id from the store is filtering it out of the listing. */
  lemma {:induction false} OwnedRemove(m: map<TaskId, Task>, caller: UserId, bound: nat, id: TaskId)
    requires IdsMatch(m)
    ensures IdsMatch(m - {id})
    ensures OwnedBy(m - {id}, caller, bound) == RemoveById(OwnedBy(m, caller, bound), id)
  {
    var m' := m - {id};
    assert IdsMatch(m');
    if bound > 0 {
      var k := bound - 1;
      var keep := Without(id);
      var tail, tail' := OwnEntry(m, caller, k), OwnEntry(m', caller, k);
      calc {
        OwnedBy(m', caller, bound);
        { OwnedStep(m', caller, bound); }
        OwnedBy(m', caller, k) + tail';
        { OwnedRemove(m, caller, k, id); }
        Filter(OwnedBy(m, caller, k), keep) + tail';
        { if tail != [] { FilterSingleton(m[k], keep); } }
        Filter(OwnedBy(m, caller, k), keep) + Filter(tail, keep);
        { FilterAppend(OwnedBy(m, caller, k), tail, keep); }
        Filter(OwnedBy(m, caller, k) + tail, keep);
        { OwnedStep(m, caller, bound); assert OwnedBy(m, caller, k) + tail == OwnedBy(m, caller, bound); }
        Filter(OwnedBy(m, caller, bound), keep);
        RemoveById(OwnedBy(m, caller, bound), id);
      }
    }
  }

  /** The cache holds exactly the caller's listing. */
  ghost predicate InSync(store: TaskStore, cache: TaskCache, caller: UserId)
    reads store, cache
  {
    store.Valid() && cache.tasks == OwnedBy(store.tasks, caller, store.nextId)
  }

  /** `fetchTasks` against `getTasks`: a full replace, so it brings the cache in line from any state. */
  method Refresh(store: TaskStore, cache: TaskCache, caller: UserId)
    requires store.Valid()
    modifies cache
    ensures InSync(store, cache, caller)
    ensures cache.error == None && !cache.loading
  {
    var reply := store.GetTasks(caller);
    cache.FetchTasks(Received(reply));
  }

  /** `createTask` against the controller's create. */
  method Create(store: TaskStore, cache: TaskCache, caller: UserId, body: Fields) returns (outcome: Outcome<Task>)
    requires InSync(store, cache, caller)
    modifies store, cache
    ensures InSync(store, cache, caller)
    ensures cache.error == old(cache.error) && cache.loading == old(cache.loading)
    ensures outcome.Returned? <==> Save(NewDoc(caller, body), old(store.nextId), old(store.clock) + 1).Success?
    ensures outcome.Returned? ==>
      && outcome.value == Save(NewDoc(caller, body), old(store.nextId), old(store.clock) + 1).value
      && outcome.value.id in store.tasks && store.tasks[outcome.value.id] == outcome.value
      && cache.tasks == old(cache.tasks) + [outcome.value]
    ensures outcome.Threw? ==> cache.tasks == old(cache.tasks) && store.tasks == old(store.tasks)
  {
    ghost var before, n, listed := store.tasks, store.nextId, cache.tasks;
    var reply := store.CreateTask(caller, body);
    outcome := cache.CreateTask(Received(reply));
    if reply.Succeeded() {
      var t := reply.body.value;
      assert store.tasks == before[n := t] && store.nextId == n + 1;
      assert cache.tasks == listed + [t];
      OwnedInsert(before, caller, n, t);
      assert cache.tasks == OwnedBy(store.tasks, caller, store.nextId);
    } else {
      assert store.tasks == before && store.nextId == n;
      assert cache.tasks == listed;
    }
  }

  /** `updateTask` against the controller's update. */
  method Edit(store: TaskStore, cache: TaskCache, caller: UserId, id: TaskId, body: Fields) returns (outcome: Outcome<Task>)
    requires InSync(store, cache, caller)
    modifies store, cache
    ensures InSync(store, cache, caller)
    ensures cache.error == old(cache.error) && cache.loading == old(cache.loading)
    ensures outcome.Returned? <==>
      && id in old(store.tasks) && old(store.tasks)[id].user == caller
      && Errors(DocOf(Patch(old(store.tasks)[id], body))) == {}
    ensures outcome.Returned? ==>
      && outcome.value == Patch(old(store.tasks)[id], body).(updatedAt := outcome.value.updatedAt)
      && id in store.tasks && store.tasks[id] == outcome.value
      && cache.tasks == ReplaceById(old(cache.tasks), id, outcome.value)
    ensures outcome.Threw? ==> cache.tasks == old(cache.tasks) && store.tasks == old(store.tasks)
  {
    var reply := store.UpdateTask(caller, id, body);
    outcome := cache.UpdateTask(id, Received(reply));
    if reply.Succeeded() {
      var m := old(store.tasks);
      OwnedReplace(m, caller, store.nextId, id, reply.body.value);
      if store.tasks == m {
        assert m[id := m[id]] == m;
      }
    }
  }

  /** `deleteTask` against the controller's delete. */
  method Remove(store: TaskStore, cache: TaskCache, caller: UserId, id: TaskId) returns (outcome: Outcome<()>)
    requires InSync(store, cache, caller)
    modifies store, cache
    ensures InSync(store, cache, caller)
    ensures cache.error == old(cache.error) && cache.loading == old(cache.loading)
    ensures outcome.Returned? <==> id in old(store.tasks) && old(store.tasks)[id].user == caller
    ensures outcome.Returned? ==>
      && id !in store.tasks
      && cache.tasks == RemoveById(old(cache.tasks), id)
      && forall t :: t in cache.tasks ==> t.id != id
    ensures outcome.Threw? ==> cache.tasks == old(cache.tasks) && store.tasks == old(store.tasks)
  {
    var reply := store.DeleteTask(caller, id);
    outcome := cache.DeleteTask(id, Acknowledged(reply));
    if reply.Succeeded() {
      OwnedRemove(old(store.tasks), caller, store.nextId, id);
    }
  }

  /**
   * Create "Pay bills", mark it completed, delete it and refresh: the new task
   * has the default status and priority, the edit changes only the status, and
   * the refreshed list no longer holds it.
   */
  method PayBillsScenario(caller: UserId) returns (created: Task, edited: Task, shown: seq<Task>, after: seq<Task>)
    ensures created.title == "Pay bills" && created.user == caller
    ensures created.status == "pending" && created.priority == "medium" && created.description.None?
    ensures edited.id == created.id && edited.status == "completed"
    ensures edited.title == created.title && edited.description == created.description && edited.priority == created.priority
    ensures shown == [edited]
    ensures forall t :: t in after ==> t.id != created.id
  {
    var store := new TaskStore();
    var cache := new TaskCache();
    Refresh(store, cache, caller);
    OwnedEmpty(caller, store.nextId);
    var made := Create(store, cache, caller, Fields(Some("Pay bills"), None, None, None));
    created := made.value;
    var changed := Edit(store, cache, caller, created.id, Fields(None, None, Some("completed"), None));
    edited := changed.value;
    shown := cache.tasks;
    var removed := Remove(store, cache, caller, created.id);
    Refresh(store, cache, caller);
    after := cache.tasks;
  }
}
