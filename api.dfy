/**
 * The in-memory data service of the task tracker (apps/web/lib/api.ts).
 *
 * It keeps a projects list, an assignees list and one user profile, which no
 * call changes, and two tables that the write calls change in place: the
 * tasks of each project and the invited user ids of each project. Every call
 * is modelled as a synchronous step that either returns a value or fails
 * with the source's error message; the simulated latency is not modelled.
 *
 * Reads are functions (and, for `fetchAllTasks`, a loop) over the values of
 * the tables. Writes are methods of `MockApi`, the object that owns the
 * tables; each is specified by a function giving its result and the new
 * table, and the properties of those functions are proved as lemmas.
 */
module Api {
  import opened Model

  type TaskTable = map<string, seq<Task>>
  type InvitationTable = map<string, seq<string>>

  /** The argument of `createTask`: a task without id, naming its assignee by id. */
  datatype NewTask = NewTask(
    title: string,
    description: Option<string>,
    status: Status,
    assigneeId: string,
    dueDate: string)

  /** The partial argument of `updateTask`; `None` is a field left out. */
  datatype TaskUpdates = TaskUpdates(
    title: Option<string>,
    description: Option<string>,
    status: Option<Status>,
    assigneeId: Option<string>,
    dueDate: Option<string>)

  /** An element of `fetchAllTasks`: a task tagged with its project's name. */
  datatype TaggedTask = TaggedTask(task: Task, projectName: string)

  /** One entry of the profile's `invitedUsers`. */
  datatype ProjectInvitees = ProjectInvitees(projectId: string, projectName: string, users: seq<Assignee>)

  /** What `fetchUserProfile` resolves with. */
  datatype ProfileData = ProfileData(
    id: string,
    name: string,
    email: string,
    joinedProjects: seq<string>,
    invitedUsers: seq<ProjectInvitees>)

  /** The outcome of a write call together with the table it leaves behind. */
  datatype Applied<T, S> = Applied(result: Result<T>, state: S)

  /** `mockTasks[pid] || []` */
  function TasksOf(table: TaskTable, pid: string): seq<Task> {
    if pid in table then table[pid] else []
  }

  /** `mockInvitations[pid] || []` */
  function InvitationsOf(table: InvitationTable, pid: string): seq<string> {
    if pid in table then table[pid] else []
  }

  // ---------------------------------------------------------------- profile

  /**
   * `ids.map(id => assignees.find(a => a.id === id)).filter(defined)`:
   * the known assignees among `ids`, in the order of `ids`.
   */
  function ResolveUsers(ids: seq<string>, people: seq<Assignee>): (r: seq<Assignee>)
    ensures |r| <= |ids|
    ensures forall a :: a in r ==> a in people && a.id in ids
    ensures (forall id :: id in ids ==> id in AssigneeIds(people)) ==>
              |r| == |ids| && forall i :: 0 <= i < |r| ==> r[i].id == ids[i]
  {
    if ids == [] then []
    else
      var found := FindAssignee(people, ids[0]);
      var rest := ResolveUsers(ids[1..], people);
      assert forall id :: id in ids[1..] ==> id in ids;
      if found.Some? then [found.value] + rest else rest
  }

  /** Resolving keeps the order of the invitation list: it distributes over concatenation. */
  lemma {:induction false} ResolveUsersAppend(a: seq<string>, b: seq<string>, people: seq<Assignee>)
    ensures ResolveUsers(a + b, people) == ResolveUsers(a, people) + ResolveUsers(b, people)
  {
    if a == [] {
      assert a + b == b;
    } else {
      assert (a + b)[0] == a[0] && (a + b)[1..] == a[1..] + b;
      ResolveUsersAppend(a[1..], b, people);
    }
  }

  /** Each listed id of a known assignee shows up once per occurrence, unknown ids are dropped. */
  lemma {:induction false} ResolveUsersCount(ids: seq<string>, people: seq<Assignee>, u: string)
    requires u in AssigneeIds(people)
    ensures multiset(ResolveUsers(ids, people))[FindAssignee(people, u).value] == multiset(ids)[u]
  {
    if ids != [] {
      var target := FindAssignee(people, u).value;
      var rest := ResolveUsers(ids[1..], people);
      ResolveUsersCount(ids[1..], people, u);
      assert ids == [ids[0]] + ids[1..];
      assert multiset(ids) == multiset([ids[0]]) + multiset(ids[1..]);
      var found := FindAssignee(people, ids[0]);
      if found.Some? {
        assert ResolveUsers(ids, people) == [found.value] + rest;
        assert multiset([found.value] + rest) == multiset([found.value]) + multiset(rest);
        assert found.value == target <==> ids[0] == u;
      } else {
        assert ResolveUsers(ids, people) == rest;
        assert ids[0] != u;
      }
    }
  }

  /** `fetchUserProfile`: the profile with one invitee entry per joined project. */
  function FetchUserProfile(
    projects: seq<Project>, profile: UserProfile, invitations: InvitationTable, people: seq<Assignee>): (r: ProfileData)
    ensures r.id == profile.id && r.name == profile.name && r.email == profile.email
    ensures r.joinedProjects == profile.joinedProjects
    ensures |r.invitedUsers| == |JoinedProjects(projects, profile.joinedProjects)|
    ensures forall i :: 0 <= i < |r.invitedUsers| ==>
              var p := JoinedProjects(projects, profile.joinedProjects)[i];
              r.invitedUsers[i].projectId == p.id && r.invitedUsers[i].projectName == p.name
    ensures forall e :: e in r.invitedUsers ==>
              e.projectId in profile.joinedProjects && e.projectId in ProjectIds(projects)
    ensures forall i :: 0 <= i < |r.invitedUsers| ==>
              r.invitedUsers[i].users ==
                ResolveUsers(InvitationsOf(invitations, JoinedProjects(projects, profile.joinedProjects)[i].id), people)
    ensures forall e, a :: e in r.invitedUsers && a in e.users ==>
              a in people && a.id in InvitationsOf(invitations, e.projectId)
  {
    var joined := JoinedProjects(projects, profile.joinedProjects);
    var entries := seq(|joined|, i requires 0 <= i < |joined| =>
      ProjectInvitees(joined[i].id, joined[i].name, ResolveUsers(InvitationsOf(invitations, joined[i].id), people)));
    assert forall e :: e in entries ==> exists i :: 0 <= i < |joined| && e == entries[i];
    ProfileData(profile.id, profile.name, profile.email, profile.joinedProjects, entries)
  }

  /**
   * A project of the list that the profile has joined has an invitee entry,
   * and every entry for it lists exactly the resolved invitation list.
   */
  lemma JoinedProjectEntry(
    projects: seq<Project>, profile: UserProfile, invitations: InvitationTable, people: seq<Assignee>, pid: string)
    requires pid in ProjectIds(projects) && pid in profile.joinedProjects
    ensures var entries := FetchUserProfile(projects, profile, invitations, people).invitedUsers;
            && (exists i :: 0 <= i < |entries| && entries[i].projectId == pid)
            && forall e :: e in entries && e.projectId == pid ==> e.users == ResolveUsers(InvitationsOf(invitations, pid), people)
  {
    var joined := JoinedProjects(projects, profile.joinedProjects);
    var entries := FetchUserProfile(projects, profile, invitations, people).invitedUsers;
    var k := IndexOf(ProjectIds(projects), pid);
    assert projects[k] in joined;
    var i :| 0 <= i < |joined| && joined[i] == projects[k];
    assert entries[i].projectId == pid;
    forall e | e in entries && e.projectId == pid
      ensures e.users == ResolveUsers(InvitationsOf(invitations, pid), people)
    {
      var j :| 0 <= j < |entries| && entries[j] == e;
    }
  }

  // -------------------------------------------------------------- all tasks

  /** `tasks.forEach(task => all.push({ ...task, projectName }))` for one project. */
  function Tagged(ts: seq<Task>, name: string): (r: seq<TaggedTask>)
    ensures |r| == |ts| && forall i :: 0 <= i < |ts| ==> r[i] == TaggedTask(ts[i], name)
  {
    seq(|ts|, i requires 0 <= i < |ts| => TaggedTask(ts[i], name))
  }

  function ProjectNames(ps: seq<Project>): (r: seq<string>)
    ensures |r| == |ps| && forall i :: 0 <= i < |ps| ==> r[i] == ps[i].name
  {
    seq(|ps|, i requires 0 <= i < |ps| => ps[i].name)
  }

  /** The tasks of every listed project, tagged, project after project. */
  function AllTasks(projects: seq<Project>, table: TaskTable): (r: seq<TaggedTask>)
    ensures forall i :: 0 <= i < |r| ==> r[i].projectName in ProjectNames(projects)
  {
    if projects == [] then []
    else Tagged(TasksOf(table, projects[0].id), projects[0].name) + AllTasks(projects[1..], table)
  }

  /** The result is a concatenation in project order. */
  lemma {:induction false} AllTasksAppend(a: seq<Project>, b: seq<Project>, table: TaskTable)
    ensures AllTasks(a + b, table) == AllTasks(a, table) + AllTasks(b, table)
  {
    if a == [] {
      assert a + b == b;
    } else {
      assert (a + b)[0] == a[0] && (a + b)[1..] == a[1..] + b;
      AllTasksAppend(a[1..], b, table);
    }
  }

  /**
   * An element of `fetchAllTasks` is exactly a stored task of a listed
   * project tagged with that project's name; a project without a task list
   * contributes nothing, and neither does a task list of an unlisted project.
   */
  lemma {:induction false} AllTasksMember(projects: seq<Project>, table: TaskTable, tt: TaggedTask)
    ensures tt in AllTasks(projects, table) <==>
              exists p :: p in projects && p.id in table && tt.task in table[p.id] && tt.projectName == p.name
  {
    if projects != [] {
      AllTasksMember(projects[1..], table, tt);
      var p := projects[0];
      assert tt in Tagged(TasksOf(table, p.id), p.name) <==> tt.task in TasksOf(table, p.id) && tt.projectName == p.name by {
        if tt in Tagged(TasksOf(table, p.id), p.name) {
          var i :| 0 <= i < |TasksOf(table, p.id)| && Tagged(TasksOf(table, p.id), p.name)[i] == tt;
        }
        if tt.task in TasksOf(table, p.id) && tt.projectName == p.name {
          var i :| 0 <= i < |TasksOf(table, p.id)| && TasksOf(table, p.id)[i] == tt.task;
          assert Tagged(TasksOf(table, p.id), p.name)[i] == tt;
        }
      }
      assert forall q :: q in projects <==> q == p || q in projects[1..];
    }
  }

  /** `fetchAllTasks`: the loop over the projects and their tasks. */
  method FetchAllTasks(projects: seq<Project>, table: TaskTable) returns (all: seq<TaggedTask>)
    ensures all == AllTasks(projects, table)
  {
    all := [];
    var i := 0;
    while i < |projects|
      invariant 0 <= i <= |projects|
      invariant all == AllTasks(projects[..i], table)
    {
      var project := projects[i];
      var ts := TasksOf(table, project.id);
      var j := 0;
      while j < |ts|
        invariant 0 <= j <= |ts|
        invariant all == AllTasks(projects[..i], table) + Tagged(ts[..j], project.name)
      {
        assert ts[..j + 1] == ts[..j] + [ts[j]];
        all := all + [TaggedTask(ts[j], project.name)];
        j := j + 1;
      }
      assert ts[..j] == ts;
      assert projects[..i + 1] == projects[..i] + [project];
      AllTasksAppend(projects[..i], [project], table);
      i := i + 1;
    }
    assert projects[..i] == projects;
  }

  // ------------------------------------------------------------ task reads

  /** `fetchTasks`: the stored list of a project. */
  function FetchTasks(table: TaskTable, projectId: Option<string>): (r: Result<seq<Task>>)
    ensures !Present(projectId) ==> r == Err("No projectId provided")
    ensures r.Ok? <==> Present(projectId) && projectId.value in table
    ensures r.Ok? ==> r.value == table[projectId.value]
  {
    if !Present(projectId) then Err("No projectId provided")
    else if projectId.value in table then Ok(table[projectId.value])
    else Err("404 Tasks not found for project: " + projectId.value)
  }

  /** `fetchTask`: the first task of the project that carries the id. */
  function FetchTask(table: TaskTable, pid: string, tid: string): (r: Result<Task>)
    ensures pid !in table ==> r == Err("Project not found")
    ensures pid in table ==> (r.Ok? <==> tid in TaskIds(table[pid]))
    ensures pid in table && r.Err? ==> r == Err("Task not found")
    ensures r.Ok? ==> pid in table && r.value == table[pid][IndexOf(TaskIds(table[pid]), tid)] && r.value.id == tid
  {
    if pid !in table then Err("Project not found")
    else
      var task := FindTask(table[pid], tid);
      if task.None? then Err("Task not found") else Ok(task.value)
  }

  // ------------------------------------------------------------ createTask

  /** `createTask`: the task built from the input and the table after the push. */
  function CreateTaskSpec(
    table: TaskTable, people: seq<Assignee>, projectId: Option<string>, input: NewTask, freshId: string): (a: Applied<Task, TaskTable>)
    ensures !Present(projectId) ==> a == Applied(Err("No projectId provided"), table)
    ensures Present(projectId) && input.assigneeId !in AssigneeIds(people) ==>
              a == Applied(Err("Assignee not found"), table)
    ensures a.result.Ok? <==> Present(projectId) && input.assigneeId in AssigneeIds(people)
    ensures a.result.Ok? ==>
              var t := a.result.value;
              && a.state == table[projectId.value := TasksOf(table, projectId.value) + [t]]
              && t.id == freshId && t.title == input.title && t.status == input.status && t.dueDate == input.dueDate
              && t.description == Some(input.description.GetOr(""))
              && t.assignee == Assignee(input.assigneeId, FindAssignee(people, input.assigneeId).value.name)
              && t.assignee in people
  {
    if !Present(projectId) then Applied(Err("No projectId provided"), table)
    else
      var assignee := FindAssignee(people, input.assigneeId);
      if assignee.None? then Applied(Err("Assignee not found"), table)
      else
        var t := Task(freshId, input.title, Some(input.description.GetOr("")), input.status,
                      Assignee(input.assigneeId, assignee.value.name), input.dueDate);
        Applied(Ok(t), table[projectId.value := TasksOf(table, projectId.value) + [t]])
  }

  /** After a create, `fetchTasks` returns the old list with the new task at its end. */
  lemma CreateThenFetchTasks(table: TaskTable, people: seq<Assignee>, projectId: Option<string>, input: NewTask, freshId: string)
    requires CreateTaskSpec(table, people, projectId, input, freshId).result.Ok?
    ensures var a := CreateTaskSpec(table, people, projectId, input, freshId);
            FetchTasks(a.state, projectId) == Ok(TasksOf(table, projectId.value) + [a.result.value])
  {
  }

  /** With an id not yet used in the project, `fetchTask` finds the created task. */
  lemma CreateThenFetchTask(table: TaskTable, people: seq<Assignee>, projectId: Option<string>, input: NewTask, freshId: string)
    requires CreateTaskSpec(table, people, projectId, input, freshId).result.Ok?
    requires freshId !in TaskIds(TasksOf(table, projectId.value))
    ensures var a := CreateTaskSpec(table, people, projectId, input, freshId);
            FetchTask(a.state, projectId.value, freshId) == a.result
  {
    var a := CreateTaskSpec(table, people, projectId, input, freshId);
    var old_ := TasksOf(table, projectId.value);
    var ids := TaskIds(old_ + [a.result.value]);
    assert ids == TaskIds(old_) + [freshId];
    assert IndexOf(ids, freshId) == |old_|;
  }

  // ------------------------------------------------------------ updateTask

  /**
   * `{ ...task, ...updates, assignee }`: every field given in `updates`
   * replaces the stored one; the assignee changes only to a known assignee
   * named by a non-empty `assigneeId`.
   */
  function MergeUpdates(t: Task, u: TaskUpdates, people: seq<Assignee>): (r: Task)
    ensures r.id == t.id
    ensures r.title == u.title.GetOr(t.title)
    ensures r.description == (if u.description.Some? then u.description else t.description)
    ensures r.status == u.status.GetOr(t.status)
    ensures r.dueDate == u.dueDate.GetOr(t.dueDate)
    ensures !Present(u.assigneeId) || u.assigneeId.value !in AssigneeIds(people) ==> r.assignee == t.assignee
    ensures Present(u.assigneeId) && u.assigneeId.value in AssigneeIds(people) ==>
              r.assignee.id == u.assigneeId.value && r.assignee in people
  {
    var updatedAssignee :=
      if Present(u.assigneeId) then FindAssignee(people, u.assigneeId.value) else Some(t.assignee);
    Task(
      t.id,
      u.title.GetOr(t.title),
      if u.description.Some? then u.description else t.description,
      u.status.GetOr(t.status),
      updatedAssignee.GetOr(t.assignee),
      u.dueDate.GetOr(t.dueDate))
  }

  /** A status-only update changes the status and nothing else. */
  lemma StatusOnlyUpdate(t: Task, st: Status, people: seq<Assignee>)
    ensures MergeUpdates(t, TaskUpdates(None, None, Some(st), None, None), people) == t.(status := st)
  {
  }

  /** `updateTask`: the merged task and the table after `tasks[index] = updated`. */
  function UpdateTaskSpec(
    table: TaskTable, people: seq<Assignee>, pid: string, tid: string, u: TaskUpdates): (a: Applied<Task, TaskTable>)
    ensures pid !in table ==> a == Applied(Err("Project not found"), table)
    ensures pid in table && tid !in TaskIds(table[pid]) ==> a == Applied(Err("Task not found"), table)
    ensures a.result.Ok? <==> pid in table && tid in TaskIds(table[pid])
    ensures a.result.Ok? ==>
              var k := IndexOf(TaskIds(table[pid]), tid);
              && a.result.value == MergeUpdates(table[pid][k], u, people)
              && a.state.Keys == table.Keys
              && (forall q :: q in table && q != pid ==> a.state[q] == table[q])
              && |a.state[pid]| == |table[pid]|
              && a.state[pid][k] == a.result.value && a.result.value.id == tid
              && (forall i :: 0 <= i < |table[pid]| && i != k ==> a.state[pid][i] == table[pid][i])
  {
    if pid !in table then Applied(Err("Project not found"), table)
    else
      var ts := table[pid];
      var index := IndexOf(TaskIds(ts), tid);
      if index == -1 then Applied(Err("Task not found"), table)
      else
        var updated := MergeUpdates(ts[index], u, people);
        Applied(Ok(updated), table[pid := ts[index := updated]])
  }

  /** After an update, `fetchTask` returns the merged task. */
  lemma UpdateThenFetchTask(table: TaskTable, people: seq<Assignee>, pid: string, tid: string, u: TaskUpdates)
    requires UpdateTaskSpec(table, people, pid, tid, u).result.Ok?
    ensures var a := UpdateTaskSpec(table, people, pid, tid, u);
            FetchTask(a.state, pid, tid) == a.result
  {
    var a := UpdateTaskSpec(table, people, pid, tid, u);
    var k := IndexOf(TaskIds(table[pid]), tid);
    assert TaskIds(a.state[pid]) == TaskIds(table[pid]);
  }

  // ------------------------------------------------------------ deleteTask

  /** `ts.filter(t => t.id !== id)` */
  function RemoveById(ts: seq<Task>, id: string): (r: seq<Task>)
    ensures |r| <= |ts|
    ensures forall t :: t in r <==> t in ts && t.id != id
    ensures id !in TaskIds(ts) ==> r == ts
  {
    if ts == [] then []
    else
      assert id !in TaskIds(ts) ==> id !in TaskIds(ts[1..]);
      if ts[0].id != id then [ts[0]] + RemoveById(ts[1..], id) else RemoveById(ts[1..], id)
  }

  /** The filter keeps the remaining tasks in their original order. */
  lemma {:induction false} RemoveByIdAppend(a: seq<Task>, b: seq<Task>, id: string)
    ensures RemoveById(a + b, id) == RemoveById(a, id) + RemoveById(b, id)
  {
    if a == [] {
      assert a + b == b;
    } else {
      assert (a + b)[0] == a[0] && (a + b)[1..] == a[1..] + b;
      RemoveByIdAppend(a[1..], b, id);
    }
  }

  /** Every task with another id keeps its multiplicity; none with the id is left. */
  lemma {:induction false} RemoveByIdCount(ts: seq<Task>, id: string, t: Task)
    ensures multiset(RemoveById(ts, id))[t] == if t.id == id then 0 else multiset(ts)[t]
  {
    if ts != [] {
      RemoveByIdCount(ts[1..], id, t);
      assert ts == [ts[0]] + ts[1..];
    }
  }

  /** No task with the removed id is left. */
  lemma RemovedIdAbsent(ts: seq<Task>, id: string)
    ensures id !in TaskIds(RemoveById(ts, id))
  {
    var r := RemoveById(ts, id);
    forall i | 0 <= i < |r|
      ensures TaskIds(r)[i] != id
    {
      assert r[i] in r;
    }
  }

  /** `deleteTask`: the table after the filter. */
  function DeleteTaskSpec(table: TaskTable, pid: string, tid: string): (a: Applied<(), TaskTable>)
    ensures pid !in table ==> a == Applied(Err("Project not found"), table)
    ensures pid in table ==> a == Applied(Ok(()), table[pid := RemoveById(table[pid], tid)])
    ensures pid in table && tid !in TaskIds(table[pid]) ==> a.state == table
  {
    if pid !in table then Applied(Err("Project not found"), table)
    else Applied(Ok(()), table[pid := RemoveById(table[pid], tid)])
  }

  /** Deleting twice has the same outcome and effect as deleting once. */
  lemma DeleteTwice(table: TaskTable, pid: string, tid: string)
    ensures var once := DeleteTaskSpec(table, pid, tid);
            DeleteTaskSpec(once.state, pid, tid) == once
  {
    var once := DeleteTaskSpec(table, pid, tid);
    if pid in table {
      RemovedIdAbsent(table[pid], tid);
    }
  }

  /** After a delete, `fetchTask` of that id fails with "Task not found". */
  lemma DeleteThenFetchTask(table: TaskTable, pid: string, tid: string)
    requires pid in table
    ensures FetchTask(DeleteTaskSpec(table, pid, tid).state, pid, tid) == Err("Task not found")
  {
    RemovedIdAbsent(table[pid], tid);
  }

  /** Removing the id of a task appended to a list that lacked it gives back the list. */
  lemma RemoveAppended(ts: seq<Task>, t: Task)
    requires t.id !in TaskIds(ts)
    ensures RemoveById(ts + [t], t.id) == ts
  {
    RemoveByIdAppend(ts, [t], t.id);
    assert [t][1..] == [];
  }

  /** Deleting a freshly created task restores the project's list. */
  lemma CreateThenDelete(table: TaskTable, people: seq<Assignee>, projectId: Option<string>, input: NewTask, freshId: string)
    requires CreateTaskSpec(table, people, projectId, input, freshId).result.Ok?
    requires freshId !in TaskIds(TasksOf(table, projectId.value))
    ensures var a := CreateTaskSpec(table, people, projectId, input, freshId);
            DeleteTaskSpec(a.state, projectId.value, freshId) ==
              Applied(Ok(()), table[projectId.value := TasksOf(table, projectId.value)])
  {
    var a := CreateTaskSpec(table, people, projectId, input, freshId);
    var pid := projectId.value;
    var before := TasksOf(table, pid);
    RemoveAppended(before, a.result.value);
    assert a.state[pid := before] == table[pid := before];
  }

  // -------------------------------------------------- inviteUsersToProject

  /** `userIds.filter(id => !current.includes(id))` */
  function NotYetInvited(current: seq<string>, userIds: seq<string>): (r: seq<string>)
    ensures forall x :: x in r <==> x in userIds && x !in current
  {
    if userIds == [] then []
    else if userIds[0] !in current then [userIds[0]] + NotYetInvited(current, userIds[1..])
    else NotYetInvited(current, userIds[1..])
  }

  /** The filter drops ids already present and keeps every other occurrence, duplicates included. */
  lemma {:induction false} NotYetInvitedCount(current: seq<string>, userIds: seq<string>, x: string)
    ensures multiset(NotYetInvited(current, userIds))[x] == if x in current then 0 else multiset(userIds)[x]
  {
    if userIds != [] {
      NotYetInvitedCount(current, userIds[1..], x);
      assert userIds == [userIds[0]] + userIds[1..];
    }
  }

  /** When every id is already present the filter leaves nothing to push. */
  lemma {:induction false} NothingLeftToInvite(current: seq<string>, userIds: seq<string>)
    requires forall id :: id in userIds ==> id in current
    ensures NotYetInvited(current, userIds) == []
  {
    if userIds != [] {
      assert forall id :: id in userIds[1..] ==> id in userIds;
      NothingLeftToInvite(current, userIds[1..]);
    }
  }

  /** The filter keeps the requested ids in the order they were given. */
  lemma {:induction false} NotYetInvitedAppend(current: seq<string>, a: seq<string>, b: seq<string>)
    ensures NotYetInvited(current, a + b) == NotYetInvited(current, a) + NotYetInvited(current, b)
  {
    if a == [] {
      assert a + b == b;
    } else {
      assert (a + b)[0] == a[0] && (a + b)[1..] == a[1..] + b;
      NotYetInvitedAppend(current, a[1..], b);
    }
  }

  /** `userIds.every(id => assignees.some(a => a.id === id))` */
  predicate AllKnown(userIds: seq<string>, people: seq<Assignee>) {
    forall id :: id in userIds ==> id in AssigneeIds(people)
  }

  /** `inviteUsersToProject`: the invitation table after the push. */
  function InviteSpec(
    projects: seq<Project>, people: seq<Assignee>, table: InvitationTable, pid: string, userIds: seq<string>): (a: Applied<(), InvitationTable>)
    ensures pid !in ProjectIds(projects) ==> a == Applied(Err("Project not found"), table)
    ensures pid in ProjectIds(projects) && !AllKnown(userIds, people) ==>
              a == Applied(Err("One or more users not found"), table)
    ensures a.result.Ok? <==> pid in ProjectIds(projects) && AllKnown(userIds, people)
    ensures a.result.Ok? ==>
              var before := InvitationsOf(table, pid);
              && a.state == table[pid := before + NotYetInvited(before, userIds)]
              && a.state[pid][..|before|] == before
              && (forall id :: id in userIds ==> id in a.state[pid])
  {
    if pid !in ProjectIds(projects) then Applied(Err("Project not found"), table)
    else if !AllKnown(userIds, people) then
      Applied(Err("One or more users not found"), table)
    else
      var before := InvitationsOf(table, pid);
      var after := before + NotYetInvited(before, userIds);
      assert after[..|before|] == before;
      Applied(Ok(()), table[pid := after])
  }

  /**
   * A successful invitation never adds a second copy of an id already
   * present; an id not yet present appears as often as it occurs in `userIds`,
   * because the filter runs against the list as it was before the push.
   */
  lemma InviteCount(projects: seq<Project>, people: seq<Assignee>, table: InvitationTable, pid: string, userIds: seq<string>, x: string)
    requires InviteSpec(projects, people, table, pid, userIds).result.Ok?
    ensures var before := InvitationsOf(table, pid);
            var after := InviteSpec(projects, people, table, pid, userIds).state[pid];
            multiset(after)[x] == if x in before then multiset(before)[x] else multiset(userIds)[x]
  {
    var before := InvitationsOf(table, pid);
    NotYetInvitedCount(before, userIds, x);
  }

  /** Inviting the same ids again succeeds and changes nothing. */
  lemma InviteTwice(projects: seq<Project>, people: seq<Assignee>, table: InvitationTable, pid: string, userIds: seq<string>)
    requires InviteSpec(projects, people, table, pid, userIds).result.Ok?
    ensures var once := InviteSpec(projects, people, table, pid, userIds);
            InviteSpec(projects, people, once.state, pid, userIds) == once
  {
    var once := InviteSpec(projects, people, table, pid, userIds);
    var before := InvitationsOf(table, pid);
    var now := before + NotYetInvited(before, userIds);
    assert once.state == table[pid := now];
    assert InvitationsOf(once.state, pid) == now;
    assert forall id :: id in userIds ==> id in now;
    NothingLeftToInvite(now, userIds);
    assert now + [] == now;
    assert once.state[pid := now] == once.state;
  }

  /**
   * Inviting one known user twice to a project the profile has joined lists
   * that user exactly once in the project's invitation list and once among
   * the users of the profile's invitee entry for that project, when the user
   * was not invited before.
   */
  lemma InvitedTwiceListedOnce(
    projects: seq<Project>, people: seq<Assignee>, table: InvitationTable, profile: UserProfile, pid: string, u: string)
    requires pid in ProjectIds(projects) && pid in profile.joinedProjects && u in AssigneeIds(people)
    requires u !in InvitationsOf(table, pid)
    ensures var once := InviteSpec(projects, people, table, pid, [u]);
            var twice := InviteSpec(projects, people, once.state, pid, [u]);
            var entries := FetchUserProfile(projects, profile, twice.state, people).invitedUsers;
            && once.result.Ok? && twice.result.Ok?
            && multiset(InvitationsOf(twice.state, pid))[u] == 1
            && (exists i :: 0 <= i < |entries| && entries[i].projectId == pid)
            && forall e :: e in entries && e.projectId == pid ==> multiset(e.users)[FindAssignee(people, u).value] == 1
  {
    var once := InviteSpec(projects, people, table, pid, [u]);
    InviteCount(projects, people, table, pid, [u], u);
    InviteTwice(projects, people, table, pid, [u]);
    var invited := InvitationsOf(once.state, pid);
    ResolveUsersCount(invited, people, u);
    JoinedProjectEntry(projects, profile, once.state, people, pid);
  }

  // ------------------------------------------------------------ the tables

  /** The module-level mock tables and the write calls that change them. */
  class MockApi {
    const projects: seq<Project>
    const assignees: seq<Assignee>
    const profile: UserProfile
    var tasks: TaskTable
    var invitations: InvitationTable

    constructor (projects: seq<Project>, assignees: seq<Assignee>, profile: UserProfile,
                 tasks: TaskTable, invitations: InvitationTable)
      ensures this.projects == projects && this.assignees == assignees && this.profile == profile
      ensures this.tasks == tasks && this.invitations == invitations
    {
      this.projects := projects;
      this.assignees := assignees;
      this.profile := profile;
      this.tasks := tasks;
      this.invitations := invitations;
    }

    /** `createTask`; `freshId` stands for the generated `task-<timestamp>` id. */
    method CreateTask(projectId: Option<string>, input: NewTask, freshId: string) returns (r: Result<Task>)
      modifies this
      ensures Applied(r, tasks) == CreateTaskSpec(old(tasks), assignees, projectId, input, freshId)
      ensures invitations == old(invitations)
    {
      if !Present(projectId) {
        return Err("No projectId provided");
      }
      var assignee := FindAssignee(assignees, input.assigneeId);
      if assignee.None? {
        return Err("Assignee not found");
      }
      var newTask := Task(freshId, input.title, Some(input.description.GetOr("")), input.status,
                          Assignee(input.assigneeId, assignee.value.name), input.dueDate);
      var pid := projectId.value;
      if pid !in tasks {
        tasks := tasks[pid := []];
      }
      tasks := tasks[pid := tasks[pid] + [newTask]];
      r := Ok(newTask);
      assert tasks == old(tasks)[pid := TasksOf(old(tasks), pid) + [newTask]];
    }

    /** `updateTask`: replaces the first task with the id by the merged task. */
    method UpdateTask(pid: string, tid: string, updates: TaskUpdates) returns (r: Result<Task>)
      modifies this
      ensures Applied(r, tasks) == UpdateTaskSpec(old(tasks), assignees, pid, tid, updates)
      ensures invitations == old(invitations)
    {
      if pid !in tasks {
        return Err("Project not found");
      }
      var ts := tasks[pid];
      var index := IndexOf(TaskIds(ts), tid);
      if index == -1 {
        return Err("Task not found");
      }
      var updated := MergeUpdates(ts[index], updates, assignees);
      tasks := tasks[pid := ts[index := updated]];
      r := Ok(updated);
    }

    /** `deleteTask`: reassigns the project's list to the filtered one. */
    method DeleteTask(pid: string, tid: string) returns (r: Result<()>)
      modifies this
      ensures Applied(r, tasks) == DeleteTaskSpec(old(tasks), pid, tid)
      ensures invitations == old(invitations)
    {
      if pid !in tasks {
        return Err("Project not found");
      }
      tasks := tasks[pid := RemoveById(tasks[pid], tid)];
      r := Ok(());
    }

    /** `inviteUsersToProject`: pushes the ids not yet invited. */
    method InviteUsersToProject(pid: string, userIds: seq<string>) returns (r: Result<()>)
      modifies this
      ensures Applied(r, invitations) == InviteSpec(projects, assignees, old(invitations), pid, userIds)
      ensures tasks == old(tasks)
    {
      if pid !in ProjectIds(projects) {
        return Err("Project not found");
      }
      if !AllKnown(userIds, assignees) {
        return Err("One or more users not found");
      }
      if pid !in invitations {
        invitations := invitations[pid := []];
      }
      var current := invitations[pid];
      invitations := invitations[pid := current + NotYetInvited(current, userIds)];
      r := Ok(());
      assert current == InvitationsOf(old(invitations), pid);
      assert invitations == old(invitations)[pid := current + NotYetInvited(current, userIds)];
    }
  }
}
