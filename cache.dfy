/**
 * The part of the query cache that the board and the task modal act on: the
 * cached task list under each `["tasks", projectId]` key, and the keys that
 * have been invalidated (marked for a refetch). A key's project id may be
 * null, as in the board's query key.
 */
module Cache {
  import opened Model

  /** What `useQuery` hands to a view: loading flag, error message, data. */
  datatype QueryState<T> = QueryState(isLoading: bool, error: Option<string>, data: Option<T>)

  class QueryClient {
    var taskLists: map<Option<string>, seq<Task>>
    var invalidated: set<Option<string>>

    constructor ()
      ensures taskLists == map[] && invalidated == {}
    {
      taskLists := map[];
      invalidated := {};
    }

    /** `getQueryData(["tasks", key])` */
    function GetTasks(key: Option<string>): (r: Option<seq<Task>>)
      reads this
      ensures r.Some? <==> key in taskLists
      ensures r.Some? ==> r.value == taskLists[key]
    {
      if key in taskLists then Some(taskLists[key]) else None
    }

    /** `setQueryData(["tasks", key], ts)` */
    method SetTasks(key: Option<string>, ts: seq<Task>)
      modifies this
      ensures taskLists == old(taskLists)[key := ts]
      ensures invalidated == old(invalidated)
    {
      taskLists := taskLists[key := ts];
    }

    /** `invalidateQueries({ queryKey: ["tasks", key] })`; the data stays in place. */
    method Invalidate(key: Option<string>)
      modifies this
      ensures invalidated == old(invalidated) + {key}
      ensures taskLists == old(taskLists)
    {
      invalidated := invalidated + {key};
    }
  }
}
