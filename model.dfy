/**
 * Entities shared by the data service, the stores and the views of the task
 * tracker: projects, assignees, tasks and the user profile, the task status
 * enumeration, and the lookups (`find`, `findIndex`, `includes`) the client
 * performs on them.
 */
module Model {

  datatype Option<T> = None | Some(value: T) {
    /** `x ?? default` (and `x || default` for values that are never falsy). */
    function GetOr(default: T): T {
      if Some? then value else default
    }
  }

  /** A call that resolves with a value or rejects with an error message. */
  datatype Result<T> = Ok(value: T) | Err(message: string)

  /**
   * JavaScript truthiness of a `string | null`: both `null` and the empty
   * string are falsy, so `if (!projectId)` rejects either.
   */
  predicate Present(s: Option<string>) {
    s.Some? && s.value != ""
  }

  /** The three columns of the board, in display order. */
  datatype Status = Todo | InProgress | Done

  const Statuses: seq<Status> := [Todo, InProgress, Done]

  /** The wire name of a status. */
  function StatusName(s: Status): string {
    match s
    case Todo => "TODO"
    case InProgress => "IN_PROGRESS"
    case Done => "DONE"
  }

  /** `statuses.includes(s)` followed by the cast `s as Status`. */
  function ParseStatus(s: string): (r: Option<Status>)
    ensures r.Some? ==> StatusName(r.value) == s
    ensures r.None? <==> forall st: Status :: StatusName(st) != s
  {
    if s == "TODO" then Some(Todo)
    else if s == "IN_PROGRESS" then Some(InProgress)
    else if s == "DONE" then Some(Done)
    else None
  }

  datatype Assignee = Assignee(id: string, name: string)

  datatype Project = Project(id: string, name: string, createdAt: string)

  /** A task; `description` is optional, the assignee is embedded by value. */
  datatype Task = Task(
    id: string,
    title: string,
    description: Option<string>,
    status: Status,
    assignee: Assignee,
    dueDate: string)

  datatype UserProfile = UserProfile(id: string, name: string, email: string, joinedProjects: seq<string>)

  // The id projections of the three entity kinds. Each datatype declares its
  // own `id` field, so each gets its own projection; a generic version taking
  // the field as a function argument would leave the lookups' quantifiers
  // without a term to trigger on.

  function TaskIds(ts: seq<Task>): (r: seq<string>)
    ensures |r| == |ts| && forall i :: 0 <= i < |ts| ==> r[i] == ts[i].id
  {
    seq(|ts|, i requires 0 <= i < |ts| => ts[i].id)
  }

  function AssigneeIds(people: seq<Assignee>): (r: seq<string>)
    ensures |r| == |people| && forall i :: 0 <= i < |people| ==> r[i] == people[i].id
  {
    seq(|people|, i requires 0 <= i < |people| => people[i].id)
  }

  function ProjectIds(ps: seq<Project>): (r: seq<string>)
    ensures |r| == |ps| && forall i :: 0 <= i < |ps| ==> r[i] == ps[i].id
  {
    seq(|ps|, i requires 0 <= i < |ps| => ps[i].id)
  }

  /** `xs.findIndex(y => y === x)`: the first position of `x`, or -1. */
  function IndexOf<T(==)>(xs: seq<T>, x: T): (r: int)
    ensures -1 <= r < |xs|
    ensures r == -1 <==> x !in xs
    ensures 0 <= r ==> xs[r] == x && x !in xs[..r]
  {
    if |xs| == 0 then -1
    else if xs[0] == x then 0
    else
      var k := IndexOf(xs[1..], x);
      if k == -1 then -1
      else
        assert xs[..k + 1] == [xs[0]] + xs[1..][..k];
        k + 1
  }

  /** `ts.find(t => t.id === id)`: the first task carrying `id`. */
  function FindTask(ts: seq<Task>, id: string): (r: Option<Task>)
    ensures r.None? <==> forall i :: 0 <= i < |ts| ==> ts[i].id != id
    ensures r.Some? ==> r.value.id == id && r.value in ts
    ensures r.Some? ==> exists k :: 0 <= k < |ts| && ts[k] == r.value && forall j :: 0 <= j < k ==> ts[j].id != id
  {
    var k := IndexOf(TaskIds(ts), id);
    if k < 0 then None
    else
      assert forall j :: 0 <= j < k ==> TaskIds(ts)[..k][j] == ts[j].id;
      Some(ts[k])
  }

  /** `assignees.find(a => a.id === id)`: the first assignee carrying `id`. */
  function FindAssignee(people: seq<Assignee>, id: string): (r: Option<Assignee>)
    ensures r.None? <==> id !in AssigneeIds(people)
    ensures r.Some? ==> r.value.id == id && r.value in people
    ensures r.Some? ==>
              exists k :: 0 <= k < |people| && people[k] == r.value && forall j :: 0 <= j < k ==> people[j].id != id
  {
    var k := IndexOf(AssigneeIds(people), id);
    if k < 0 then None
    else
      assert forall j :: 0 <= j < k ==> AssigneeIds(people)[..k][j] == people[j].id;
      Some(people[k])
  }

  /**
   * `projects.filter(p => joined.includes(p.id))`: the projects whose id is
   * listed in `joined`, in the order of `projects`.
   */
  function JoinedProjects(projects: seq<Project>, joined: seq<string>): (r: seq<Project>)
    ensures |r| <= |projects|
    ensures forall p :: p in r <==> p in projects && p.id in joined
  {
    if projects == [] then []
    else
      (if projects[0].id in joined then [projects[0]] else [])
      + JoinedProjects(projects[1..], joined)
  }

  /** The filter keeps the relative order: it distributes over concatenation. */
  lemma {:induction false} JoinedProjectsAppend(a: seq<Project>, b: seq<Project>, joined: seq<string>)
    ensures JoinedProjects(a + b, joined) == JoinedProjects(a, joined) + JoinedProjects(b, joined)
  {
    if a == [] {
      assert a + b == b;
    } else {
      assert (a + b)[0] == a[0] && (a + b)[1..] == a[1..] + b;
      JoinedProjectsAppend(a[1..], b, joined);
    }
  }
}
