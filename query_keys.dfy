/** The react-query cache keys and the mutation callbacks of
    frontend/src/hooks/useSchedules.ts and frontend/src/hooks/useTasks.ts.
    A key is a list of parts; invalidating a key marks stale every cached
    key it is a prefix of, which is why every factory key starts with the
    factory's `all`. */
module QueryKeys {
  import opened Wrappers
  import opened AppTypes
  import Script

  datatype KeyPart = Word(word: string) | Id(id: int) | Filters(filters: string)

  type Key = seq<KeyPart>

  predicate IsPrefix(p: Key, k: Key) {
    |p| <= |k| && k[..|p|] == p
  }

  /** The calls a key factory offers besides `all`. */
  datatype KeyCall = Lists | List(filters: string) | Details | Detail(id: int) | Stats

  /** `scheduleKeys`. */
  const ScheduleAll: Key := [Word("schedules")]

  function ScheduleLists(): Key { ScheduleAll + [Word("list")] }

  function ScheduleList(filters: string): Key { ScheduleLists() + [Filters(filters)] }

  function ScheduleDetails(): Key { ScheduleAll + [Word("detail")] }

  function ScheduleDetail(id: int): Key { ScheduleDetails() + [Id(id)] }

  function ScheduleStats(): Key { ScheduleAll + [Word("stats")] }

  function ScheduleKey(c: KeyCall): Key {
    match c
    case Lists => ScheduleLists()
    case List(f) => ScheduleList(f)
    case Details => ScheduleDetails()
    case Detail(id) => ScheduleDetail(id)
    case Stats => ScheduleStats()
  }

  /** `taskKeys`; it has no `stats`. */
  const TaskAll: Key := [Word("tasks")]

  function TaskLists(): Key { TaskAll + [Word("list")] }

  function TaskList(filters: string): Key { TaskLists() + [Filters(filters)] }

  function TaskDetails(): Key { TaskAll + [Word("detail")] }

  function TaskDetail(id: int): Key { TaskDetails() + [Id(id)] }

  function TaskKey(c: KeyCall): Key
    requires !c.Stats?
  {
    match c
    case Lists => TaskLists()
    case List(f) => TaskList(f)
    case Details => TaskDetails()
    case Detail(id) => TaskDetail(id)
  }

  /** Every schedule key starts with `scheduleKeys.all`, has the documented
      shape, and different calls give different keys. */
  lemma ScheduleKeysShape(c: KeyCall, d: KeyCall)
    ensures IsPrefix(ScheduleAll, ScheduleKey(c))
    ensures c.Detail? ==> ScheduleKey(c) == [Word("schedules"), Word("detail"), Id(c.id)]
    ensures c.List? ==> ScheduleKey(c) == [Word("schedules"), Word("list"), Filters(c.filters)]
    ensures c.Stats? ==> ScheduleKey(c) == [Word("schedules"), Word("stats")]
    ensures ScheduleKey(c) == ScheduleKey(d) ==> c == d
  {
    if ScheduleKey(c) == ScheduleKey(d) {
      assert ScheduleKey(c)[1] == ScheduleKey(d)[1];
      if |ScheduleKey(c)| == 3 {
        assert ScheduleKey(c)[2] == ScheduleKey(d)[2];
      }
    }
  }

  /** Every task key starts with `taskKeys.all`, `detail(id)` is
      ['tasks', 'detail', id], and no task key lies under the schedules
      prefix. */
  lemma TaskKeysShape(c: KeyCall)
    requires !c.Stats?
    ensures IsPrefix(TaskAll, TaskKey(c))
    ensures c.Detail? ==> TaskKey(c) == [Word("tasks"), Word("detail"), Id(c.id)]
    ensures !IsPrefix(ScheduleAll, TaskKey(c))
  {
    assert TaskKey(c)[0] == Word("tasks");
  }

  /** `enabled: !!id`: a detail query runs only for a non-zero id. */
  function DetailEnabled(id: int): bool {
    id != 0
  }

  /** The three fixed fallbacks of the visit mutations. */
  datatype VisitMutation = StartVisit | EndVisit | CancelVisit

  function VisitFallback(m: VisitMutation): string {
    match m
    case StartVisit => "Failed to start visit"
    case EndVisit => "Failed to end visit"
    case CancelVisit => "Failed to cancel visit"
  }

  /** `onError` of the visit mutations: the server's `details`, else the
      error's own message, else the fixed text. */
  function VisitErrorMessage(m: VisitMutation, details: Option<string>, message: Option<string>): (r: string)
    ensures Script.Truthy(details) ==> r == details.value
    ensures !Script.Truthy(details) && Script.Truthy(message) ==> r == message.value
    ensures !Script.Truthy(details) && !Script.Truthy(message) ==> r == VisitFallback(m)
    ensures r != ""
  {
    Script.MessageOr(details, message, VisitFallback(m))
  }

  /** `onError` of the two task mutations. */
  function TaskErrorMessage(batch: bool, details: Option<string>, message: Option<string>): (r: string)
    ensures Script.Truthy(details) ==> r == details.value
    ensures !Script.Truthy(details) && Script.Truthy(message) ==> r == message.value
    ensures !Script.Truthy(details) && !Script.Truthy(message) ==>
      r == (if batch then "Failed to update multiple tasks" else "Failed to update task status")
    ensures r != ""
  {
    Script.MessageOr(details, message, if batch then "Failed to update multiple tasks" else "Failed to update task status")
  }

  /** What the cache holds under a key: a task written by a mutation, or
      data some query fetched. */
  datatype Entry = TaskData(task: AppTask) | Fetched

  /** The cache after writing each task under its detail key, in order. */
  function WithTasks(data: map<Key, Entry>, ts: seq<AppTask>): map<Key, Entry>
    decreases |ts|
  {
    if ts == [] then data
    else WithTasks(data, ts[..|ts| - 1])[TaskDetail(ts[|ts| - 1].id) := TaskData(ts[|ts| - 1])]
  }

  /** Writing a batch touches only the tasks' detail keys. */
  lemma {:induction false} WithTasksKeepsOthers(data: map<Key, Entry>, ts: seq<AppTask>, k: Key)
    requires forall t | t in ts :: k != TaskDetail(t.id)
    ensures k in WithTasks(data, ts) <==> k in data
    ensures k in data ==> WithTasks(data, ts)[k] == data[k]
    decreases |ts|
  {
    if ts != [] {
      var init := ts[..|ts| - 1];
      assert ts[|ts| - 1] in ts;
      forall t | t in init ensures k != TaskDetail(t.id) {
        assert t in ts;
      }
      WithTasksKeepsOthers(data, init, k);
    }
  }

  /** A task's detail key holds that task unless a later one in the batch
      has the same id. */
  lemma {:induction false} WithTasksLastWins(data: map<Key, Entry>, ts: seq<AppTask>, i: nat)
    requires i < |ts| && forall j | i < j < |ts| :: ts[j].id != ts[i].id
    ensures TaskDetail(ts[i].id) in WithTasks(data, ts)
    ensures WithTasks(data, ts)[TaskDetail(ts[i].id)] == TaskData(ts[i])
    decreases |ts|
  {
    if i < |ts| - 1 {
      var init := ts[..|ts| - 1];
      assert init[i] == ts[i];
      TaskKeyInjective(ts[|ts| - 1].id, ts[i].id);
      WithTasksLastWins(data, init, i);
    }
  }

  lemma TaskKeyInjective(a: int, b: int)
    requires a != b
    ensures TaskDetail(a) != TaskDetail(b)
  {
    TaskKeysShape(Detail(a));
    TaskKeysShape(Detail(b));
    assert TaskDetail(a)[2] == Id(a);
  }

  /** The detail keys of a batch of tasks. */
  function DetailKeys(ts: seq<AppTask>): set<Key> {
    set t | t in ts :: TaskDetail(t.id)
  }

  /** The keys a prefix invalidates among those cached. */
  function Matching(keys: set<Key>, prefix: Key): set<Key> {
    set k | k in keys && IsPrefix(prefix, k)
  }

  /** The part of the react-query client the hooks use: cached data and
      the keys marked stale (to be refetched). */
  class QueryCache {
    var data: map<Key, Entry>
    var stale: set<Key>

    constructor()
      ensures data == map[] && stale == {}
    {
      data := map[];
      stale := {};
    }

    /** `invalidateQueries({ queryKey: prefix })`. */
    method Invalidate(prefix: Key)
      modifies this`stale
      ensures stale == old(stale) + Matching(data.Keys, prefix)
    {
      stale := stale + Matching(data.Keys, prefix);
    }

    /** `setQueryData(taskKeys.detail(t.id), t)`: the entry is replaced and
      is fresh again. */
    method SetTask(t: AppTask)
      modifies this
      ensures data == old(data)[TaskDetail(t.id) := TaskData(t)]
      ensures stale == old(stale) - {TaskDetail(t.id)}
    {
      data := data[TaskDetail(t.id) := TaskData(t)];
      stale := stale - {TaskDetail(t.id)};
    }

    /** `onSuccess` of the start, end and cancel visit mutations: every
      cached schedule query becomes stale, and no task entry does. */
    method OnVisitMutationSuccess()
      modifies this`stale
      ensures stale == old(stale) + Matching(data.Keys, ScheduleAll)
      ensures forall c | ScheduleKey(c) in data :: ScheduleKey(c) in stale
      ensures forall c: KeyCall | !c.Stats? :: TaskKey(c) in stale <==> TaskKey(c) in old(stale)
    {
      Invalidate(ScheduleAll);
      forall c | ScheduleKey(c) in data ensures ScheduleKey(c) in stale {
        ScheduleKeysShape(c, c);
      }
      forall c: KeyCall | !c.Stats? ensures TaskKey(c) in stale <==> TaskKey(c) in old(stale) {
        TaskKeysShape(c);
      }
    }

    /** `onSuccess` of `useUpdateTaskStatus`: the task is cached under its
      detail key, then the schedule queries (['schedules'], which is
      `scheduleKeys.all`) are invalidated. */
    method OnTaskStatusSuccess(t: AppTask)
      modifies this
      ensures data == old(data)[TaskDetail(t.id) := TaskData(t)]
      ensures stale == (old(stale) - {TaskDetail(t.id)}) + Matching(data.Keys, ScheduleAll)
      ensures TaskDetail(t.id) !in stale
    {
      SetTask(t);
      Invalidate([Word("schedules")]);
      TaskKeysShape(Detail(t.id));
    }

    /** `onSuccess` of `useUpdateMultipleTasks`: each returned task is
      cached under its own id, in order, then the schedule queries are
      invalidated. */
    method OnMultipleTasksSuccess(ts: seq<AppTask>)
      modifies this
      ensures data == WithTasks(old(data), ts)
      ensures forall i | 0 <= i < |ts| && (forall j | i < j < |ts| :: ts[j].id != ts[i].id) ::
        TaskDetail(ts[i].id) in data && data[TaskDetail(ts[i].id)] == TaskData(ts[i])
      ensures forall k | k in data && IsPrefix(ScheduleAll, k) :: k in stale
      ensures forall t | t in ts :: TaskDetail(t.id) !in stale
      ensures stale == (old(stale) - DetailKeys(ts)) + Matching(data.Keys, ScheduleAll)
    {
      var i := 0;
      while i < |ts|
        invariant 0 <= i <= |ts|
        invariant data == WithTasks(old(data), ts[..i])
        invariant forall j | 0 <= j < i :: TaskDetail(ts[j].id) !in stale
        invariant stale == old(stale) - DetailKeys(ts[..i])
      {
        assert ts[..i + 1][..i] == ts[..i];
        assert DetailKeys(ts[..i + 1]) == DetailKeys(ts[..i]) + {TaskDetail(ts[i].id)};
        SetTask(ts[i]);
        i := i + 1;
      }
      assert ts[..i] == ts;
      Invalidate(ScheduleAll);
      forall i | 0 <= i < |ts| && (forall j | i < j < |ts| :: ts[j].id != ts[i].id)
        ensures TaskDetail(ts[i].id) in data && data[TaskDetail(ts[i].id)] == TaskData(ts[i])
      {
        WithTasksLastWins(old(data), ts, i);
      }
      forall t | t in ts ensures TaskDetail(t.id) !in stale {
        TaskKeysShape(Detail(t.id));
        var j :| 0 <= j < |ts| && ts[j] == t;
      }
    }
  }
}
