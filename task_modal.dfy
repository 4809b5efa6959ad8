/**
 * The task modal (apps/web/components/TaskModal.tsx): the form schema and its
 * due-date rule, the form values taken from the task being edited, and the
 * submit and delete handlers, which route to the data service and, on
 * success only, invalidate the project's task list and close the modal.
 *
 * Dates are day numbers: `dayOf(s)` is the day a date string denotes, or
 * `None` when `new Date(s)` is an invalid date, and `today` is the current
 * day. `isoDay(s)` is the date string the form shows for a stored due date.
 */
module TaskModal {
  import opened Model
  import opened Api
  import opened Stores
  import opened Cache

  /** The form values; the textarea always holds a string. */
  datatype TaskForm = TaskForm(title: string, description: string, status: string, assigneeId: string, dueDate: string)

  /** The fields that carry a validation rule, in schema order. */
  datatype Field = TitleField | StatusField | AssigneeField | DueDateField

  /** The schema's verdict: the parsed data, or the fields that failed. */
  datatype Validation = Accepted(data: NewTask) | Rejected(errors: seq<Field>)

  /** The `dueDate` refinement: non-empty, a valid date, and not before today. */
  predicate DueDateAccepted(s: string, dayOf: string -> Option<int>, today: int) {
    s != "" && dayOf(s).Some? && dayOf(s).value >= today
  }

  /** Whether the form value of `f` breaks that field's rule. */
  predicate Fails(form: TaskForm, f: Field, dayOf: string -> Option<int>, today: int) {
    match f
    case TitleField => form.title == ""
    case StatusField => ParseStatus(form.status).None?
    case AssigneeField => form.assigneeId == ""
    case DueDateField => !DueDateAccepted(form.dueDate, dayOf, today)
  }

  /** The fields of `fields` whose rule the form breaks, in order. */
  function Failing(form: TaskForm, fields: seq<Field>, dayOf: string -> Option<int>, today: int): (r: seq<Field>)
    ensures forall f :: f in r <==> f in fields && Fails(form, f, dayOf, today)
  {
    if fields == [] then []
    else (if Fails(form, fields[0], dayOf, today) then [fields[0]] else []) + Failing(form, fields[1..], dayOf, today)
  }

  /** `taskSchema` applied to the form values. */
  function Validate(form: TaskForm, dayOf: string -> Option<int>, today: int): (r: Validation)
    ensures r.Accepted? <==>
              form.title != "" && ParseStatus(form.status).Some? && form.assigneeId != ""
              && DueDateAccepted(form.dueDate, dayOf, today)
    ensures r.Accepted? ==>
              r.data == NewTask(form.title, Some(form.description), ParseStatus(form.status).value,
                                form.assigneeId, form.dueDate)
    ensures r.Rejected? ==>
              && (TitleField in r.errors <==> form.title == "")
              && (StatusField in r.errors <==> ParseStatus(form.status).None?)
              && (AssigneeField in r.errors <==> form.assigneeId == "")
              && (DueDateField in r.errors <==> !DueDateAccepted(form.dueDate, dayOf, today))
  {
    var errors := Failing(form, [TitleField, StatusField, AssigneeField, DueDateField], dayOf, today);
    if errors == [] then
      assert !Fails(form, TitleField, dayOf, today) && !Fails(form, StatusField, dayOf, today);
      assert !Fails(form, AssigneeField, dayOf, today) && !Fails(form, DueDateField, dayOf, today);
      Accepted(NewTask(form.title, Some(form.description), ParseStatus(form.status).value, form.assigneeId, form.dueDate))
    else
      assert errors[0] in errors;
      Rejected(errors)
  }

  /** The default values: everything empty, status TODO, due today. */
  function DefaultForm(todayIso: string): (r: TaskForm)
    ensures ParseStatus(r.status) == Some(Todo) && r.dueDate == todayIso
    ensures r.title == "" && r.description == "" && r.assigneeId == ""
  {
    TaskForm("", "", "TODO", "", todayIso)
  }

  /** The create form as it opens is rejected: it names neither a title nor an assignee. */
  lemma DefaultFormRejected(todayIso: string, dayOf: string -> Option<int>, today: int)
    ensures var v := Validate(DefaultForm(todayIso), dayOf, today);
            v.Rejected? && TitleField in v.errors && AssigneeField in v.errors && StatusField !in v.errors
  {
  }

  /** The values `reset` puts in the form once the edited task has loaded. */
  function FormOf(t: Task, isoDay: string -> string): (r: TaskForm)
    ensures ParseStatus(r.status) == Some(t.status)
  {
    TaskForm(t.title, t.description.GetOr(""), StatusName(t.status), t.assignee.id, isoDay(t.dueDate))
  }

  /** `updateTask` receives the whole validated form as its partial update. */
  function UpdatesOf(data: NewTask): (u: TaskUpdates)
    ensures u.title.Some? && u.status.Some? && u.assigneeId.Some? && u.dueDate.Some?
  {
    TaskUpdates(Some(data.title), data.description, Some(data.status), Some(data.assigneeId), Some(data.dueDate))
  }

  /**
   * Loading a task and submitting the form unchanged stores the task as it
   * was, except that a missing description becomes "" — provided its stored
   * date is already in the form's format, its assignee is the directory's
   * entry for that id, and the form passes validation.
   */
  lemma UntouchedEditKeepsTask(
    table: TaskTable, people: seq<Assignee>, pid: string, t: Task,
    isoDay: string -> string, dayOf: string -> Option<int>, today: int)
    requires FetchTask(table, pid, t.id) == Ok(t)
    requires isoDay(t.dueDate) == t.dueDate
    requires FindAssignee(people, t.assignee.id) == Some(t.assignee)
    requires Validate(FormOf(t, isoDay), dayOf, today).Accepted?
    ensures var a := UpdateTaskSpec(table, people, pid, t.id, UpdatesOf(Validate(FormOf(t, isoDay), dayOf, today).data));
            && a.result == Ok(t.(description := Some(t.description.GetOr(""))))
            && (t.description.Some? ==> a.state == table)
  {
    var data := Validate(FormOf(t, isoDay), dayOf, today).data;
    var a := UpdateTaskSpec(table, people, pid, t.id, UpdatesOf(data));
    var k := IndexOf(TaskIds(table[pid]), t.id);
    assert table[pid][k] == t;
    if t.description.Some? {
      assert a.state[pid] == table[pid];
      assert a.state == table;
    }
  }

  /**
   * A task whose due date has passed cannot be saved from the edit form
   * unless the date is moved: the loaded form fails on the due date alone.
   */
  lemma PastDueTaskRejected(t: Task, isoDay: string -> string, dayOf: string -> Option<int>, today: int)
    requires t.title != "" && t.assignee.id != ""
    requires dayOf(isoDay(t.dueDate)).Some? && dayOf(isoDay(t.dueDate)).value < today
    ensures Validate(FormOf(t, isoDay), dayOf, today) == Rejected([DueDateField])
  {
    var form := FormOf(t, isoDay);
    var fields := [TitleField, StatusField, AssigneeField, DueDateField];
    assert Failing(form, fields[3..], dayOf, today) == [DueDateField];
    assert Failing(form, fields[2..], dayOf, today) == [DueDateField] by { assert fields[2..][1..] == fields[3..]; }
    assert Failing(form, fields[1..], dayOf, today) == [DueDateField] by { assert fields[1..][1..] == fields[2..]; }
    assert Failing(form, fields, dayOf, today) == [DueDateField];
  }

  class Modal {
    const projectId: string
    const store: UIStore
    const client: QueryClient
    const api: MockApi
    /** The values held by the form. */
    var form: TaskForm

    constructor (projectId: string, store: UIStore, client: QueryClient, api: MockApi, todayIso: string)
      ensures this.projectId == projectId && this.store == store && this.client == client && this.api == api
      ensures form == DefaultForm(todayIso)
    {
      this.projectId := projectId;
      this.store := store;
      this.client := client;
      this.api := api;
      form := DefaultForm(todayIso);
    }

    /**
     * The callbacks of a settled mutation: on success the project's task
     * list is invalidated and the modal closes; on failure only a toast is
     * shown. Nothing else in the store or the cache changes.
     */
    twostate predicate Settled(ok: bool)
      reads this, store, client
    {
      && (if ok then
            client.invalidated == old(client.invalidated) + {Some(projectId)}
            && !store.isModalOpen && store.editingTaskId == None
          else
            client.invalidated == old(client.invalidated)
            && store.isModalOpen == old(store.isModalOpen) && store.editingTaskId == old(store.editingTaskId))
      && client.taskLists == old(client.taskLists)
      && store.activeProjectId == old(store.activeProjectId)
      && store.isInviteModalOpen == old(store.isInviteModalOpen)
      && store.viewMode == old(store.viewMode)
    }

    /** The user changes the form values. */
    method Edit(values: TaskForm)
      modifies this
      ensures form == values
    {
      form := values;
    }

    /** The effect that resets the form once the edited task has loaded. */
    method ResetFromTask(taskLoading: bool, editingTask: Option<Task>, isoDay: string -> string)
      modifies this
      ensures !taskLoading && editingTask.Some? ==> form == FormOf(editingTask.value, isoDay)
      ensures taskLoading || editingTask.None? ==> form == old(form)
    {
      if taskLoading {
        return;
      }
      if editingTask.Some? {
        form := FormOf(editingTask.value, isoDay);
      }
    }

    /** The success and error callbacks shared by the three mutations. */
    method Settle(ok: bool)
      modifies store, client
      ensures Settled(ok)
    {
      if ok {
        client.Invalidate(Some(projectId));
        store.CloseModal();
      }
    }

    /** `onSubmit`: update the edited task when there is one, create otherwise. */
    method OnSubmit(data: NewTask, freshId: string) returns (r: Result<Task>)
      modifies store, client, api
      ensures Present(old(store.editingTaskId)) ==>
                Applied(r, api.tasks) ==
                  UpdateTaskSpec(old(api.tasks), api.assignees, projectId, old(store.editingTaskId).value, UpdatesOf(data))
      ensures !Present(old(store.editingTaskId)) ==>
                Applied(r, api.tasks) == CreateTaskSpec(old(api.tasks), api.assignees, Some(projectId), data, freshId)
      ensures api.invitations == old(api.invitations)
      ensures Settled(r.Ok?)
    {
      if Present(store.editingTaskId) {
        r := api.UpdateTask(projectId, store.editingTaskId.value, UpdatesOf(data));
      } else {
        r := api.CreateTask(Some(projectId), data, freshId);
      }
      Settle(r.Ok?);
    }

    /**
     * `handleSubmit(onSubmit)`: validate the form; only accepted data reaches
     * `onSubmit`, and a rejected form changes nothing.
     */
    method HandleSubmit(dayOf: string -> Option<int>, today: int, freshId: string)
      returns (v: Validation, r: Option<Result<Task>>)
      modifies store, client, api
      ensures v == Validate(form, dayOf, today)
      ensures r.Some? <==> v.Accepted?
      ensures v.Rejected? ==>
                api.tasks == old(api.tasks) && client.invalidated == old(client.invalidated)
                && client.taskLists == old(client.taskLists)
                && store.isModalOpen == old(store.isModalOpen) && store.editingTaskId == old(store.editingTaskId)
                && store.activeProjectId == old(store.activeProjectId)
                && store.isInviteModalOpen == old(store.isInviteModalOpen) && store.viewMode == old(store.viewMode)
      ensures v.Accepted? && Present(old(store.editingTaskId)) ==>
                Applied(r.value, api.tasks) ==
                  UpdateTaskSpec(old(api.tasks), api.assignees, projectId, old(store.editingTaskId).value, UpdatesOf(v.data))
      ensures v.Accepted? && !Present(old(store.editingTaskId)) ==>
                Applied(r.value, api.tasks) == CreateTaskSpec(old(api.tasks), api.assignees, Some(projectId), v.data, freshId)
      ensures v.Accepted? ==> Settled(r.value.Ok?)
      ensures api.invitations == old(api.invitations)
    {
      v := Validate(form, dayOf, today);
      if v.Rejected? {
        return v, None;
      }
      var result := OnSubmit(v.data, freshId);
      r := Some(result);
    }

    /** `handleDelete`: delete the edited task once the user confirms. */
    method HandleDelete(confirmed: bool) returns (r: Option<Result<()>>)
      modifies store, client, api
      ensures r.Some? <==> Present(old(store.editingTaskId)) && confirmed
      ensures r.None? ==>
                api.tasks == old(api.tasks) && client.invalidated == old(client.invalidated)
                && client.taskLists == old(client.taskLists)
                && store.isModalOpen == old(store.isModalOpen) && store.editingTaskId == old(store.editingTaskId)
                && store.activeProjectId == old(store.activeProjectId)
                && store.isInviteModalOpen == old(store.isInviteModalOpen) && store.viewMode == old(store.viewMode)
      ensures r.Some? ==>
                Applied(r.value, api.tasks) == DeleteTaskSpec(old(api.tasks), projectId, old(store.editingTaskId).value)
                && Settled(r.value.Ok?)
      ensures api.invitations == old(api.invitations)
    {
      if Present(store.editingTaskId) && confirmed {
        var result := api.DeleteTask(projectId, store.editingTaskId.value);
        Settle(result.Ok?);
        r := Some(result);
      } else {
        r := None;
      }
    }
  }
}
