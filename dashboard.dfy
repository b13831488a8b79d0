/**
 * The dashboard's pure helpers: the search and status filter over the task
 * list, the four statistics, the priority badge colour and the blank form.
 */
module Dashboard {
  import opened Wrappers
  import opened TaskModel
  import opened Sequences

  /** `toLowerCase` on one character, ASCII only. */
  function LowerChar(c: char): char {
    if 'A' <= c <= 'Z' then (c as int + 32) as char else c
  }

  /** `toLowerCase` on a string, ASCII only. */
  function Lower(s: string): (r: string)
    ensures |r| == |s|
    ensures forall i :: 0 <= i < |s| ==> r[i] == LowerChar(s[i])
    ensures forall i :: 0 <= i < |r| ==> !('A' <= r[i] <= 'Z')
  {
    if s == [] then [] else [LowerChar(s[0])] + Lower(s[1..])
  }

  /** Lower-casing twice is lower-casing once. */
  lemma LowerIdempotent(s: string)
    ensures Lower(Lower(s)) == Lower(s)
  {
    assert forall i :: 0 <= i < |s| ==> Lower(Lower(s))[i] == Lower(s)[i];
  }

  /** `sub` sits in `s` starting at index `i`. */
  predicate OccursAt(s: string, sub: string, i: int) {
    0 <= i && i + |sub| <= |s| && s[i..i + |sub|] == sub
  }

  /** `s.includes(sub)`: `sub` is a prefix of `s` or of one of its suffixes. */
  predicate Includes(s: string, sub: string)
    decreases |s|
  {
    (|sub| <= |s| && s[..|sub|] == sub) || (s != [] && Includes(s[1..], sub))
  }

  /** Where `includes` holds, the substring occurs at some index. */
  lemma {:induction false} IncludesOccurs(s: string, sub: string) returns (i: nat)
    requires Includes(s, sub)
    ensures OccursAt(s, sub, i)
    decreases |s|
  {
    if |sub| <= |s| && s[..|sub|] == sub {
      i := 0;
    } else {
      var j := IncludesOccurs(s[1..], sub);
      assert s[1..][j..j + |sub|] == s[j + 1..j + 1 + |sub|];
      i := j + 1;
    }
  }

  /** An occurrence at any index makes `includes` hold. */
  lemma {:induction false} OccursIncludes(s: string, sub: string, i: int)
    requires OccursAt(s, sub, i)
    ensures Includes(s, sub)
    decreases i
  {
    if i > 0 {
      assert s[1..][i - 1..i - 1 + |sub|] == s[i..i + |sub|];
      OccursIncludes(s[1..], sub, i - 1);
    }
  }

  /** `sub` occurs somewhere in `s`: the reference meaning of `includes`. */
  ghost predicate Occurs(s: string, sub: string) {
    exists i :: OccursAt(s, sub, i)
  }

  /** `includes` holds exactly when the substring occurs at some index. */
  lemma IncludesIffOccurs(s: string, sub: string)
    ensures Includes(s, sub) <==> Occurs(s, sub)
  {
    if Includes(s, sub) {
      var i := IncludesOccurs(s, sub);
    }
    forall i | OccursAt(s, sub, i) ensures Includes(s, sub) {
      OccursIncludes(s, sub, i);
    }
  }

  /** The search box: the lower-cased term occurs in the lower-cased title or description. */
  predicate MatchesSearch(t: Task, term: string) {
    var needle := Lower(term);
    Includes(Lower(t.title), needle)
    || (t.description.Some? && Includes(Lower(t.description.value), needle))
  }

  /** The status select: `all`, or exactly the task's status. */
  predicate MatchesStatus(t: Task, filter: string) {
    filter == "all" || t.status == filter
  }

  function Matching(term: string, filter: string): Task -> bool {
    (t: Task) => MatchesSearch(t, term) && MatchesStatus(t, filter)
  }

  /** The tasks the dashboard shows for a search term and a status filter. */
  function FilteredTasks(ts: seq<Task>, term: string, filter: string): (r: seq<Task>)
    ensures IsSubsequence(r, ts)
    ensures forall t :: t in r <==> t in ts && MatchesSearch(t, term) && MatchesStatus(t, filter)
    ensures forall t ::
      multiset(r)[t] == if MatchesSearch(t, term) && MatchesStatus(t, filter) then multiset(ts)[t] else 0
    ensures filter != "all" ==> forall t :: t in r ==> t.status == filter
  {
    FilterMultiset(ts, Matching(term, filter));
    Filter(ts, Matching(term, filter))
  }

  /** The empty term matches every task, whatever its title or description. */
  lemma EmptyTermMatches(t: Task)
    ensures MatchesSearch(t, "")
  {
    assert Lower(t.title)[..0] == "";
  }

  /** With an empty search and the `all` filter the whole list is shown, in order. */
  lemma ShowAll(ts: seq<Task>)
    ensures FilteredTasks(ts, "", "all") == ts
  {
    forall t | t in ts ensures Matching("", "all")(t) {
      EmptyTermMatches(t);
    }
  }

  /** The search ignores the case of the term. */
  lemma SearchIgnoresCase(t: Task, term: string)
    ensures MatchesSearch(t, term) == MatchesSearch(t, Lower(term))
  {
    LowerIdempotent(term);
  }

  /** The search finds a term exactly when it occurs, ignoring case, in the title or the description. */
  lemma SearchMeansOccurrence(t: Task, term: string)
    ensures MatchesSearch(t, term) <==>
      Occurs(Lower(t.title), Lower(term))
      || (t.description.Some? && Occurs(Lower(t.description.value), Lower(term)))
  {
    IncludesIffOccurs(Lower(t.title), Lower(term));
    if t.description.Some? {
      IncludesIffOccurs(Lower(t.description.value), Lower(term));
    }
  }

  /** The four cards above the task list. */
  datatype Stats = Stats(total: nat, completed: nat, pending: nat, highPriority: nat)

  function WithStatus(status: string): Task -> bool {
    (t: Task) => t.status == status
  }

  function WithPriority(priority: string): Task -> bool {
    (t: Task) => t.priority == priority
  }

  /** Filtering by a status keeps as many tasks as there are positions holding that status. */
  lemma CountByStatus(ts: seq<Task>, status: string)
    ensures |Filter(ts, WithStatus(status))| == |set i | 0 <= i < |ts| && ts[i].status == status|
  {
    FilterCountsPositions(ts, WithStatus(status));
    assert KeptPositions(ts, WithStatus(status)) == set i | 0 <= i < |ts| && ts[i].status == status;
  }

  /** Filtering by a priority keeps as many tasks as there are positions holding that priority. */
  lemma CountByPriority(ts: seq<Task>, priority: string)
    ensures |Filter(ts, WithPriority(priority))| == |set i | 0 <= i < |ts| && ts[i].priority == priority|
  {
    FilterCountsPositions(ts, WithPriority(priority));
    assert KeptPositions(ts, WithPriority(priority)) == set i | 0 <= i < |ts| && ts[i].priority == priority;
  }

  /** Each card counts the positions of the list holding a task with that exact status or priority. */
  function Statistics(ts: seq<Task>): (st: Stats)
    ensures st.total == |ts|
    ensures st.completed == |set i | 0 <= i < |ts| && ts[i].status == "completed"|
    ensures st.pending == |set i | 0 <= i < |ts| && ts[i].status == "pending"|
    ensures st.highPriority == |set i | 0 <= i < |ts| && ts[i].priority == "high"|
    ensures st.completed + st.pending <= st.total
    ensures st.highPriority <= st.total
  {
    FilterDisjointLength(ts, WithStatus("completed"), WithStatus("pending"));
    CountByStatus(ts, "completed");
    CountByStatus(ts, "pending");
    CountByPriority(ts, "high");
    Stats(|ts|,
          |Filter(ts, WithStatus("completed"))|,
          |Filter(ts, WithStatus("pending"))|,
          |Filter(ts, WithPriority("high"))|)
  }

  /** The Completed and Pending cards count what the status filter shows with an empty search. */
  lemma StatsAgreeWithFilter(ts: seq<Task>)
    ensures Statistics(ts).completed == |FilteredTasks(ts, "", "completed")|
    ensures Statistics(ts).pending == |FilteredTasks(ts, "", "pending")|
  {
    forall t | t in ts ensures MatchesSearch(t, "") {
      EmptyTermMatches(t);
    }
    FilterSameCondition(ts, WithStatus("completed"), Matching("", "completed"));
    FilterSameCondition(ts, WithStatus("pending"), Matching("", "pending"));
  }

  const HighBadge: string := "bg-red-100 text-red-700"
  const MediumBadge: string := "bg-blue-100 text-blue-700"
  const LowBadge: string := "bg-slate-100 text-slate-700"

  /** The badge colour of a priority: red, blue, and slate for `low` and anything unrecognised. */
  function PriorityColor(priority: string): (c: string)
    ensures c == HighBadge <==> priority == "high"
    ensures c == MediumBadge <==> priority == "medium"
    ensures c == LowBadge <==> priority != "high" && priority != "medium"
  {
    match priority
    case "high" => HighBadge
    case "medium" => MediumBadge
    case "low" => LowBadge
    case _ => LowBadge
  }

  /** The form a new task starts from. */
  const BlankForm: Fields := Fields(Some(""), Some(""), Some("pending"), Some("medium"))

  /**
   * The blank form's status and priority are the schema defaults; its title is
   * empty, so the schema refuses it until a title is typed in.
   */
  lemma BlankFormMatchesSchema(user: UserId, id: TaskId, now: Time)
    ensures BlankForm.status == Some(DefaultStatus) && BlankForm.priority == Some(DefaultPriority)
    ensures var d := Doc(Some(user), BlankForm.title, BlankForm.description, BlankForm.status, BlankForm.priority);
      Save(d, id, now) == Failure({TitlePath})
  {
  }
}
