/**
 * The client's task hook: a local list of tasks with a loading flag and an
 * error message, changed only after the server has answered.
 */
module UseTasks {
  import opened Wrappers
  import opened TaskModel
  import opened Sequences

  /** How a request to the server settles: with the response data, or rejected with the server's message if it sent one. */
  datatype ApiResult<T> = Resolved(data: T) | Rejected(message: Option<string>)

  /** What an operation gives its caller: a value, or an exception with a message. */
  datatype Outcome<T> = Returned(value: T) | Threw(message: string)

  const FetchFallback: string := "Error fetching tasks"
  const CreateFallback: string := "Error creating task"
  const UpdateFallback: string := "Error updating task"
  const DeleteFallback: string := "Error deleting task"

  /** `message || fallback`: the server's message unless it is missing or empty. */
  function ErrorMessage(message: Option<string>, fallback: string): (m: string)
    ensures fallback != "" ==> m != ""
    ensures m == fallback || message == Some(m)
    ensures Truthy(message) ==> m == message.value
  {
    if Truthy(message) then message.value else fallback
  }

  function Replacing(id: TaskId, t: Task): Task -> Task {
    (x: Task) => if x.id == id then t else x
  }

  /** `ts.map(x => x._id === id ? t : x)` */
  function ReplaceById(ts: seq<Task>, id: TaskId, t: Task): (r: seq<Task>)
    ensures |r| == |ts|
    ensures forall i :: 0 <= i < |ts| && ts[i].id == id ==> r[i] == t
    ensures forall i :: 0 <= i < |ts| && ts[i].id != id ==> r[i] == ts[i]
  {
    Map(ts, Replacing(id, t))
  }

  function Without(id: TaskId): Task -> bool {
    (x: Task) => x.id != id
  }

  /** `ts.filter(x => x._id !== id)` */
  function RemoveById(ts: seq<Task>, id: TaskId): (r: seq<Task>)
    ensures forall x :: x in r <==> x in ts && x.id != id
    ensures forall x :: multiset(r)[x] == if x.id != id then multiset(ts)[x] else 0
    ensures IsSubsequence(r, ts)
  {
    FilterMultiset(ts, Without(id));
    Filter(ts, Without(id))
  }

  /** Replacing an id that no entry carries leaves the list as it was. */
  lemma ReplaceAbsentId(ts: seq<Task>, id: TaskId, t: Task)
    requires forall x :: x in ts ==> x.id != id
    ensures ReplaceById(ts, id, t) == ts
  {
    assert forall i :: 0 <= i < |ts| ==> ts[i] in ts;
  }

  /** Removing an id that no entry carries leaves the list as it was. */
  lemma RemoveAbsentId(ts: seq<Task>, id: TaskId)
    requires forall x :: x in ts ==> x.id != id
    ensures RemoveById(ts, id) == ts
  {
  }

  class TaskCache {
    var tasks: seq<Task>
    var loading: bool
    var error: Option<string>

    constructor ()
      ensures tasks == [] && !loading && error == None
    {
      tasks := [];
      loading := false;
      error := None;
    }

    /** The request is issued: `loading` is set and nothing else changes. */
    method BeginFetch()
      modifies this`loading
      ensures loading
    {
      loading := true;
    }

    /** The request settles: the list is replaced or the error recorded, and `loading` is cleared either way. */
    method SettleFetch(response: ApiResult<seq<Task>>)
      modifies this
      ensures !loading
      ensures response.Resolved? ==> tasks == response.data && error == None
      ensures response.Rejected? ==>
        tasks == old(tasks) && error == Some(ErrorMessage(response.message, FetchFallback))
    {
      match response {
        case Resolved(data) =>
          tasks := data;
          error := None;
        case Rejected(message) =>
          error := Some(ErrorMessage(message, FetchFallback));
      }
      loading := false;
    }

    /** `fetchTasks`: loading while the request is outstanding, then the server's list or an error. */
    method FetchTasks(response: ApiResult<seq<Task>>)
      modifies this
      ensures !loading
      ensures response.Resolved? ==> tasks == response.data && error == None
      ensures response.Rejected? ==>
        tasks == old(tasks) && error == Some(ErrorMessage(response.message, FetchFallback))
    {
      BeginFetch();
      SettleFetch(response);
    }

    /** `createTask`: the created task is appended and handed back; a failure is thrown and changes nothing. */
    method CreateTask(response: ApiResult<Task>) returns (outcome: Outcome<Task>)
      modifies this`tasks
      ensures response.Resolved? ==>
        outcome == Returned(response.data) && tasks == old(tasks) + [response.data]
      ensures response.Rejected? ==>
        outcome == Threw(ErrorMessage(response.message, CreateFallback)) && tasks == old(tasks)
    {
      match response
      case Resolved(data) =>
        tasks := tasks + [data];
        outcome := Returned(data);
      case Rejected(message) =>
        outcome := Threw(ErrorMessage(message, CreateFallback));
    }

    /** `updateTask`: every entry with that id becomes the server's task; a failure is thrown and changes nothing. */
    method UpdateTask(id: TaskId, response: ApiResult<Task>) returns (outcome: Outcome<Task>)
      modifies this`tasks
      ensures response.Resolved? ==>
        outcome == Returned(response.data) && tasks == ReplaceById(old(tasks), id, response.data)
      ensures response.Rejected? ==>
        outcome == Threw(ErrorMessage(response.message, UpdateFallback)) && tasks == old(tasks)
    {
      match response
      case Resolved(data) =>
        tasks := ReplaceById(tasks, id, data);
        outcome := Returned(data);
      case Rejected(message) =>
        outcome := Threw(ErrorMessage(message, UpdateFallback));
    }

    /** `deleteTask`: every entry with that id is dropped; a failure is thrown and changes nothing. */
    method DeleteTask(id: TaskId, response: ApiResult<()>) returns (outcome: Outcome<()>)
      modifies this`tasks
      ensures response.Resolved? ==>
        outcome == Returned(()) && tasks == RemoveById(old(tasks), id)
      ensures response.Rejected? ==>
        outcome == Threw(ErrorMessage(response.message, DeleteFallback)) && tasks == old(tasks)
    {
      match response
      case Resolved(_) =>
        tasks := RemoveById(tasks, id);
        outcome := Returned(());
      case Rejected(message) =>
        outcome := Threw(ErrorMessage(message, DeleteFallback));
    }
  }
}
