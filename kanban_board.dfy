/**
 * The kanban board (apps/web/components/KanbanBoard.tsx): the partition of a
 * project's tasks into status columns, and the drag-to-status mutation that
 * updates the cached list optimistically, calls `updateTask`, restores the
 * snapshot on failure and, on either outcome, invalidates the list and
 * clears the drag marker.
 */
module Kanban {
  import opened Model
  import opened Api
  import opened Cache

  // --------------------------------------------------------------- columns

  /** `tasks.filter(task => task.status === status)` */
  function Column(ts: seq<Task>, status: Status): (r: seq<Task>)
    ensures |r| <= |ts|
  {
    if ts == [] then []
    else if ts[0].status == status then [ts[0]] + Column(ts[1..], status)
    else Column(ts[1..], status)
  }

  /** The column of a list with a first task: that task if it has the status, then the rest's column. */
  lemma ColumnCons(t: Task, rest: seq<Task>, status: Status)
    ensures Column([t] + rest, status) == (if t.status == status then [t] else []) + Column(rest, status)
  {
    assert ([t] + rest)[0] == t && ([t] + rest)[1..] == rest;
  }

  /** A column keeps the relative order of its tasks. */
  lemma {:induction false} ColumnAppend(a: seq<Task>, b: seq<Task>, status: Status)
    ensures Column(a + b, status) == Column(a, status) + Column(b, status)
  {
    if a == [] {
      assert a + b == b;
    } else {
      assert (a + b)[0] == a[0] && (a + b)[1..] == a[1..] + b;
      ColumnAppend(a[1..], b, status);
      if a[0].status == status {
        assert [a[0]] + (Column(a[1..], status) + Column(b, status))
            == ([a[0]] + Column(a[1..], status)) + Column(b, status);
      }
    }
  }

  /** `tasksByStatus`: one column per status. */
  function TasksByStatus(ts: seq<Task>): (r: map<Status, seq<Task>>)
    ensures r.Keys == {Todo, InProgress, Done}
    ensures forall st :: st in r ==> r[st] == Column(ts, st)
  {
    map[Todo := Column(ts, Todo), InProgress := Column(ts, InProgress), Done := Column(ts, Done)]
  }

  /** A column holds each task of its status as often as the list does, and no other task. */
  lemma {:induction false} ColumnCount(ts: seq<Task>, status: Status, t: Task)
    ensures multiset(Column(ts, status))[t] == if t.status == status then multiset(ts)[t] else 0
  {
    if ts != [] {
      ColumnCount(ts[1..], status, t);
      ColumnCons(ts[0], ts[1..], status);
      assert ts == [ts[0]] + ts[1..];
    }
  }

  /**
   * The columns partition the tasks: each task lands, as often as it occurs,
   * in the column of its own status, and the column sizes add up to the
   * number of tasks.
   */
  lemma ColumnsPartition(ts: seq<Task>)
    ensures multiset(Column(ts, Todo)) + multiset(Column(ts, InProgress)) + multiset(Column(ts, Done)) == multiset(ts)
    ensures |Column(ts, Todo)| + |Column(ts, InProgress)| + |Column(ts, Done)| == |ts|
  {
    var all := multiset(Column(ts, Todo)) + multiset(Column(ts, InProgress)) + multiset(Column(ts, Done));
    forall t: Task
      ensures all[t] == multiset(ts)[t]
    {
      ColumnCount(ts, Todo, t);
      ColumnCount(ts, InProgress, t);
      ColumnCount(ts, Done, t);
    }
    assert all == multiset(ts);
  }

  // ---------------------------------------------------- optimistic update

  /** `previousTasks.map(t => t.id === taskId ? { ...t, status } : t)` */
  function WithStatus(ts: seq<Task>, taskId: string, status: Status): (r: seq<Task>)
    ensures |r| == |ts|
    ensures forall i :: 0 <= i < |ts| ==> r[i].(status := ts[i].status) == ts[i]
    ensures forall i :: 0 <= i < |ts| && ts[i].id == taskId ==> r[i].status == status
    ensures forall i :: 0 <= i < |ts| && ts[i].id != taskId ==> r[i] == ts[i]
    ensures taskId !in TaskIds(ts) ==> r == ts
  {
    seq(|ts|, i requires 0 <= i < |ts| => if ts[i].id == taskId then ts[i].(status := status) else ts[i])
  }

  /** The argument `{ status }` the board passes to `updateTask`. */
  function StatusUpdate(status: Status): TaskUpdates {
    TaskUpdates(None, None, Some(status), None, None)
  }

  /** No two tasks of the list share an id. */
  predicate UniqueIds(ts: seq<Task>) {
    forall i, j :: 0 <= i < j < |ts| ==> ts[i].id != ts[j].id
  }

  /**
   * When the cached list is the stored list and task ids are unique, the
   * optimistic list is exactly the list the data service ends up storing.
   */
  lemma OptimisticMatchesServer(table: TaskTable, people: seq<Assignee>, pid: string, taskId: string, status: Status)
    requires pid in table && taskId in TaskIds(table[pid]) && UniqueIds(table[pid])
    ensures UpdateTaskSpec(table, people, pid, taskId, StatusUpdate(status)).state[pid] ==
              WithStatus(table[pid], taskId, status)
  {
    var ts := table[pid];
    var k := IndexOf(TaskIds(ts), taskId);
    StatusOnlyUpdate(ts[k], status, people);
    var stored := UpdateTaskSpec(table, people, pid, taskId, StatusUpdate(status)).state[pid];
    var optimistic := WithStatus(ts, taskId, status);
    assert stored == ts[k := ts[k].(status := status)];
    forall i | 0 <= i < |ts|
      ensures stored[i] == optimistic[i]
    {
      if i != k {
        assert ts[i].id != taskId by {
          if i < k { assert ts[i].id != ts[k].id; } else { assert ts[k].id != ts[i].id; }
        }
      }
    }
  }

  // ------------------------------------------------------------- the board

  class KanbanBoard {
    const projectId: Option<string>
    const client: QueryClient
    const api: MockApi
    /** The task shown under the pointer while it is dragged. */
    var activeTask: Option<Task>

    constructor (projectId: Option<string>, client: QueryClient, api: MockApi)
      ensures this.projectId == projectId && this.client == client && this.api == api
      ensures activeTask == None
    {
      this.projectId := projectId;
      this.client := client;
      this.api := api;
      activeTask := None;
    }

    /** The board's `tasks`: the cached list, or `[]` when there is none. */
    function Tasks(): (r: seq<Task>)
      reads client
      ensures projectId in client.taskLists ==> r == client.taskLists[projectId]
      ensures projectId !in client.taskLists ==> r == []
    {
      client.GetTasks(projectId).GetOr([])
    }

    /** `handleDragStart`: the first task with the dragged id, or none. */
    method HandleDragStart(activeId: string)
      modifies this
      ensures activeTask == FindTask(Tasks(), activeId)
      ensures activeTask.Some? ==> activeTask.value in Tasks() && activeTask.value.id == activeId
      ensures activeTask.None? <==> activeId !in TaskIds(Tasks())
    {
      activeTask := FindTask(client.GetTasks(projectId).GetOr([]), activeId);
    }

    /** `onMutate`: snapshot the cached list (or `[]`) and cache the optimistic list. */
    method OnMutate(taskId: string, status: Status) returns (previous: seq<Task>)
      modifies client
      ensures previous == old(client.GetTasks(projectId)).GetOr([])
      ensures client.taskLists == old(client.taskLists)[projectId := WithStatus(previous, taskId, status)]
      ensures client.invalidated == old(client.invalidated)
    {
      previous := client.GetTasks(projectId).GetOr([]);
      client.SetTasks(projectId, WithStatus(previous, taskId, status));
    }

    /** `onError`: the snapshot is always an array, so it is always restored. */
    method OnError(previous: seq<Task>)
      modifies client
      ensures client.taskLists == old(client.taskLists)[projectId := previous]
      ensures client.invalidated == old(client.invalidated)
    {
      client.SetTasks(projectId, previous);
    }

    /** `onSettled`: invalidate the list and drop the drag marker. */
    method OnSettled()
      modifies this, client
      ensures client.invalidated == old(client.invalidated) + {projectId}
      ensures client.taskLists == old(client.taskLists)
      ensures activeTask == None
    {
      client.Invalidate(projectId);
      activeTask := None;
    }

    /**
     * `mutation.mutate({ taskId, status })` run to settlement: the optimistic
     * step, the `updateTask` call, the rollback on failure (success leaves
     * the optimistic list in place) and the settle step.
     */
    method MoveTask(taskId: string, status: Status) returns (r: Result<Task>)
      requires Present(projectId)
      modifies this, client, api
      ensures Applied(r, api.tasks) ==
                UpdateTaskSpec(old(api.tasks), api.assignees, projectId.value, taskId, StatusUpdate(status))
      ensures api.invitations == old(api.invitations)
      ensures var previous := old(client.GetTasks(projectId)).GetOr([]);
              client.taskLists ==
                old(client.taskLists)[projectId := if r.Ok? then WithStatus(previous, taskId, status) else previous]
      ensures client.invalidated == old(client.invalidated) + {projectId}
      ensures activeTask == None
    {
      var previous := OnMutate(taskId, status);
      r := api.UpdateTask(projectId.value, taskId, StatusUpdate(status));
      if r.Err? {
        OnError(previous);
      }
      OnSettled();
    }

    /**
     * `handleDragEnd`: a mutation is issued exactly when there is a drop
     * target, a project, and the target is one of the three statuses;
     * otherwise only the drag marker is cleared.
     */
    method HandleDragEnd(activeId: string, overId: Option<string>) returns (issued: Option<Result<Task>>)
      modifies this, client, api
      ensures issued.Some? <==> overId.Some? && Present(projectId) && ParseStatus(overId.value).Some?
      ensures issued.None? ==>
                client.taskLists == old(client.taskLists) && client.invalidated == old(client.invalidated)
                && api.tasks == old(api.tasks)
      ensures issued.Some? ==>
                var status := ParseStatus(overId.value).value;
                var previous := old(client.GetTasks(projectId)).GetOr([]);
                && Applied(issued.value, api.tasks) ==
                     UpdateTaskSpec(old(api.tasks), api.assignees, projectId.value, activeId, StatusUpdate(status))
                && client.taskLists == old(client.taskLists)[projectId :=
                     if issued.value.Ok? then WithStatus(previous, activeId, status) else previous]
                && client.invalidated == old(client.invalidated) + {projectId}
      ensures api.invitations == old(api.invitations)
      ensures activeTask == None
    {
      if overId.None? || !Present(projectId) {
        activeTask := None;
        return None;
      }
      var status := ParseStatus(overId.value);
      if status.Some? {
        var r := MoveTask(activeId, status.value);
        issued := Some(r);
      } else {
        activeTask := None;
        issued := None;
      }
    }
  }
}
