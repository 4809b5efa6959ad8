/**
 * The all-tasks page (apps/web/app/tasks/page.tsx): the status filter, the
 * mapping between the filter and the value shown in the status select, and
 * the choice between the loading, error, empty and table views.
 */
module TasksPage {
  import opened Model
  import opened Api
  import opened Cache
  import Kanban

  /** `tasks.filter(task => task.status === name)` */
  function WithStatusName(ts: seq<TaggedTask>, name: string): (r: seq<TaggedTask>)
    ensures |r| <= |ts|
    ensures forall tt :: tt in r <==> tt in ts && StatusName(tt.task.status) == name
  {
    if ts == [] then []
    else (if StatusName(ts[0].task.status) == name then [ts[0]] else []) + WithStatusName(ts[1..], name)
  }

  /** The filter keeps the relative order of the tasks it keeps. */
  lemma {:induction false} WithStatusNameAppend(a: seq<TaggedTask>, b: seq<TaggedTask>, name: string)
    ensures WithStatusName(a + b, name) == WithStatusName(a, name) + WithStatusName(b, name)
  {
    if a == [] {
      assert a + b == b;
    } else {
      assert (a + b)[0] == a[0] && (a + b)[1..] == a[1..] + b;
      WithStatusNameAppend(a[1..], b, name);
    }
  }

  /**
   * Filtering one project's tagged tasks by a status name gives that
   * project's board column for the status, tagged the same way.
   */
  lemma {:induction false} FilterIsColumn(ts: seq<Task>, projectName: string, st: Status)
    ensures WithStatusName(Tagged(ts, projectName), StatusName(st)) == Tagged(Kanban.Column(ts, st), projectName)
  {
    if ts != [] {
      var tagged := Tagged(ts, projectName);
      assert tagged[1..] == Tagged(ts[1..], projectName);
      FilterIsColumn(ts[1..], projectName, st);
      var head := if ts[0].status == st then [ts[0]] else [];
      TaggedAppend(head, Kanban.Column(ts[1..], st), projectName);
    }
  }

  lemma TaggedAppend(a: seq<Task>, b: seq<Task>, projectName: string)
    ensures Tagged(a + b, projectName) == Tagged(a, projectName) + Tagged(b, projectName)
  {
    assert |Tagged(a + b, projectName)| == |Tagged(a, projectName) + Tagged(b, projectName)|;
  }

  /** `filteredTasks`: all tasks without a filter, else those of the named status. */
  function FilteredTasks(ts: seq<TaggedTask>, filter: Option<string>): (r: seq<TaggedTask>)
    ensures !Present(filter) ==> r == ts
    ensures Present(filter) ==> forall tt :: tt in r <==> tt in ts && StatusName(tt.task.status) == filter.value
  {
    if Present(filter) then
      WithStatusName(ts, filter.value)
    else ts
  }

  /**
   * A filter value that names no status matches no task; the empty string
   * is falsy and so filters nothing out.
   */
  lemma {:induction false} UnknownStatusMatchesNothing(ts: seq<TaggedTask>, name: string)
    requires ParseStatus(name).None?
    ensures WithStatusName(ts, name) == []
    ensures name != "" ==> FilteredTasks(ts, Some(name)) == []
    ensures FilteredTasks(ts, Some("")) == ts
  {
    if ts != [] {
      UnknownStatusMatchesNothing(ts[1..], name);
      assert StatusName(ts[0].task.status) != name;
    }
  }

  /** `onValueChange`: "all" clears the filter, any other value becomes it. */
  function FilterOf(value: string): (f: Option<string>)
    ensures f.None? <==> value == "all"
  {
    if value == "all" then None else Some(value)
  }

  /** `statusFilter || "all"`: the value the select shows. */
  function SelectValue(filter: Option<string>): (v: string)
    ensures v == "all" <==> !Present(filter) || filter.value == "all"
  {
    if Present(filter) then filter.value else "all"
  }

  /** Choosing an option and reading the select back gives that option. */
  lemma SelectRoundTrip(value: string)
    requires value != ""
    ensures SelectValue(FilterOf(value)) == value
  {
  }

  /** A filter the select can produce is recovered from the value it shows. */
  lemma FilterRoundTrip(filter: Option<string>)
    requires filter.None? || (filter.value != "" && filter.value != "all")
    ensures FilterOf(SelectValue(filter)) == filter
  {
  }

  /** The four options of the select all map to filters the page applies as labelled. */
  lemma SelectOptions(ts: seq<TaggedTask>, st: Status)
    ensures FilteredTasks(ts, FilterOf("all")) == ts
    ensures FilteredTasks(ts, FilterOf(StatusName(st))) == WithStatusName(ts, StatusName(st))
  {
  }

  datatype TasksView = Loading | Failed(message: string) | NoTasks | Rows(rows: seq<TaggedTask>)

  /** What the page shows: loading first, then the error, then the filtered table or "No tasks found". */
  function TasksPageView(query: QueryState<seq<TaggedTask>>, filter: Option<string>): (v: TasksView)
    ensures query.isLoading <==> v.Loading?
    ensures v.Failed? <==> !query.isLoading && query.error.Some?
    ensures v.Failed? ==> v.message == query.error.value
    ensures v.NoTasks? <==>
              !query.isLoading && query.error.None? && FilteredTasks(query.data.GetOr([]), filter) == []
    ensures v.Rows? ==> v.rows != [] && v.rows == FilteredTasks(query.data.GetOr([]), filter)
  {
    if query.isLoading then Loading
    else if query.error.Some? then Failed(query.error.value)
    else
      var rows := FilteredTasks(query.data.GetOr([]), filter);
      if rows == [] then NoTasks else Rows(rows)
  }
}
