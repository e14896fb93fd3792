/**
 * The cron task scheduler (functions/api/scheduler/TaskScheduler.ts): a
 * registry of named tasks keyed by id, each enabled or disabled, run one at
 * a time by id, all together, or by the cron string of a scheduled event.
 * A task's `execute` callback does database work this model does not see;
 * whether it succeeds is the parameter `succeeds`, and the time a run ends
 * is the parameter `now`.
 */
module Scheduler {
  import opened Common

  datatype Task = Task(
    id: string, name: string, description: string, schedule: string,
    enabled: bool, lastRun: Option<int>, nextRun: Option<int>)

  /** What `executeTask` does: return after a run or a skip, or throw. */
  datatype RunOutcome =
    | Ran
    | Skipped
    | TaskFailed
    | NotFound(message: string)

  datatype TaskStatus = TaskStatus(
    id: string, name: string, schedule: string, enabled: bool,
    lastRun: Option<int>, nextRun: Option<int>)

  datatype StatusReport = StatusReport(totalTasks: nat, enabledTasks: nat, disabledTasks: nat, tasks: seq<TaskStatus>)

  /** The five tasks the constructor registers, in registration order. */
  const DefaultTasks: seq<Task> := [
    Task("cleanup-old-data", "清理旧数据", "删除 90 天前的历史数据", "0 2 * * *", true, None, None),
    Task("generate-hourly-stats", "生成小时统计", "生成每小时的统计数据", "0 * * * *", true, None, None),
    Task("generate-weekly-report", "生成周报", "生成每周的详细报告并发送", "0 9 * * 1", true, None, None),
    Task("optimize-database", "优化数据库", "运行数据库维护和优化任务", "0 3 * * *", true, None, None),
    Task("update-intent-statistics", "更新意图统计", "更新最近的意图统计数据", "*/5 * * * *", true, None, None)]

  const DefaultIds: seq<string> := ["cleanup-old-data", "generate-hourly-stats", "generate-weekly-report",
                                     "optimize-database", "update-intent-statistics"]

  /** The default tasks carry the five ids, no two alike. */
  lemma DefaultIdsDistinct()
    ensures |DefaultIds| == |DefaultTasks| == 5 && Distinct(DefaultIds)
    ensures forall i :: 0 <= i < 5 ==> DefaultTasks[i].id == DefaultIds[i]
  {
    assert |DefaultIds[0]| == 16 && |DefaultIds[1]| == 21 && |DefaultIds[2]| == 22
           && |DefaultIds[3]| == 17 && |DefaultIds[4]| == 24;
  }

  /** Registering the next default task keeps the ones before it and adds it at the end. */
  lemma DefaultStep(tasks: map<string, Task>, order: seq<string>, i: nat)
    requires i < 5 && order == DefaultIds[..i]
    requires forall j :: 0 <= j < i ==> DefaultIds[j] in tasks && tasks[DefaultIds[j]] == DefaultTasks[j]
    ensures DefaultTasks[i].id == DefaultIds[i] && DefaultIds[i] !in order
    ensures forall j :: 0 <= j <= i ==> tasks[DefaultIds[i] := DefaultTasks[i]][DefaultIds[j]] == DefaultTasks[j]
    ensures DefaultIds[..i + 1] == order + [DefaultIds[i]]
  {
    DefaultIdsDistinct();
    forall j | 0 <= j < i
      ensures order[j] != DefaultIds[i]
    {
      assert order[j] == DefaultIds[j];
    }
  }

  /** The result of `executeTask(id)` on the registry `tasks`. */
  function Outcome(tasks: map<string, Task>, id: string, succeeds: string -> bool): (r: RunOutcome)
    ensures r.NotFound? <==> id !in tasks
    ensures r.NotFound? ==> r.message == "Task not found: " + id
    ensures r == Skipped <==> id in tasks && !tasks[id].enabled
    ensures r == Ran <==> id in tasks && tasks[id].enabled && succeeds(id)
  {
    if id !in tasks then NotFound("Task not found: " + id)
    else if !tasks[id].enabled then Skipped
    else if succeeds(id) then Ran
    else TaskFailed
  }

  /** The registry after `executeTask(id)`: only a successful run stamps `lastRun`. */
  function AfterRun(tasks: map<string, Task>, id: string, succeeds: string -> bool, now: int): (r: map<string, Task>)
    ensures r.Keys == tasks.Keys
    ensures forall k :: k in r ==> r[k].enabled == tasks[k].enabled && r[k].id == tasks[k].id
    ensures Outcome(tasks, id, succeeds) == Ran ==> r == tasks[id := tasks[id].(lastRun := Some(now))]
    ensures Outcome(tasks, id, succeeds) != Ran ==> r == tasks
  {
    if Outcome(tasks, id, succeeds) == Ran then tasks[id := tasks[id].(lastRun := Some(now))] else tasks
  }

  /** The registry after running the tasks `ids` one after the other. */
  function AfterRuns(tasks: map<string, Task>, ids: seq<string>, succeeds: string -> bool, now: int): (r: map<string, Task>)
    ensures r.Keys == tasks.Keys
  {
    if ids == [] then tasks
    else AfterRun(AfterRuns(tasks, ids[..|ids| - 1], succeeds, now), ids[|ids| - 1], succeeds, now)
  }

  lemma AfterRunsStep(tasks: map<string, Task>, ids: seq<string>, i: nat, succeeds: string -> bool, now: int)
    requires i < |ids|
    ensures AfterRuns(tasks, ids[..i + 1], succeeds, now) == AfterRun(AfterRuns(tasks, ids[..i], succeeds, now), ids[i], succeeds, now)
  {
    assert ids[..i + 1][..i] == ids[..i];
  }

  /**
   * Running a list of tasks changes nothing but `lastRun`, and stamps it on
   * exactly the listed tasks that are enabled and succeed: a failure does
   * not keep a later task from running.
   */
  lemma {:induction false} AfterRunsStamps(tasks: map<string, Task>, ids: seq<string>, succeeds: string -> bool, now: int)
    ensures forall k :: k in tasks ==>
              AfterRuns(tasks, ids, succeeds, now)[k] ==
                (if k in ids && tasks[k].enabled && succeeds(k) then tasks[k].(lastRun := Some(now)) else tasks[k])
  {
    if ids != [] {
      var init := ids[..|ids| - 1];
      var last := ids[|ids| - 1];
      AfterRunsStamps(tasks, init, succeeds, now);
      forall k | k in tasks
        ensures AfterRuns(tasks, ids, succeeds, now)[k] ==
                (if k in ids && tasks[k].enabled && succeeds(k) then tasks[k].(lastRun := Some(now)) else tasks[k])
      {
        assert k in ids <==> k in init || k == last by {
          assert ids == init + [last];
        }
      }
    }
  }

  /** The ids, in `order`, of the enabled tasks whose schedule is `cron` (any schedule when `cron` is None). */
  function Selected(order: seq<string>, tasks: map<string, Task>, cron: Option<string>): (r: seq<string>)
    requires forall k :: k in order ==> k in tasks
    ensures forall k :: k in r <==> k in order && tasks[k].enabled && (cron.None? || tasks[k].schedule == cron.value)
    ensures Distinct(order) ==> Distinct(r)
    ensures |r| <= |order|
  {
    if order == [] then []
    else
      var init := order[..|order| - 1];
      var last := order[|order| - 1];
      var rest := Selected(init, tasks, cron);
      assert forall i :: 0 <= i < |order| - 1 ==> init[i] == order[i];
      assert Distinct(order) ==> Distinct(init) && last !in init;
      if tasks[last].enabled && (cron.None? || tasks[last].schedule == cron.value) then rest + [last] else rest
  }

  /** The selected ids keep the insertion order of the task map: they are a subsequence of `order`. */
  lemma {:induction false} SelectedKeepsOrder(order: seq<string>, tasks: map<string, Task>, cron: Option<string>)
    requires forall k :: k in order ==> k in tasks
    ensures IsSubsequence(Selected(order, tasks, cron), order)
  {
    if order != [] {
      var init := order[..|order| - 1];
      var last := order[|order| - 1];
      assert order == init + [last];
      SelectedKeepsOrder(init, tasks, cron);
      if tasks[last].enabled && (cron.None? || tasks[last].schedule == cron.value) {
        SubsequenceAppendBoth(Selected(init, tasks, cron), init, last);
      } else {
        SubsequenceExtend(Selected(init, tasks, cron), init, last);
      }
    }
  }

  /** How many of `ids` name an enabled task (`enabled` true) or a disabled one (`enabled` false). */
  function CountEnabled(ids: seq<string>, tasks: map<string, Task>, enabled: bool): (n: nat)
    requires forall k :: k in ids ==> k in tasks
    ensures n <= |ids|
  {
    if ids == [] then 0
    else CountEnabled(ids[..|ids| - 1], tasks, enabled) + (if tasks[ids[|ids| - 1]].enabled == enabled then 1 else 0)
  }

  /** Every task is enabled or disabled. */
  lemma {:induction false} EnabledPlusDisabled(ids: seq<string>, tasks: map<string, Task>)
    requires forall k :: k in ids ==> k in tasks
    ensures CountEnabled(ids, tasks, true) + CountEnabled(ids, tasks, false) == |ids|
  {
    if ids != [] {
      EnabledPlusDisabled(ids[..|ids| - 1], tasks);
    }
  }

  function StatusOf(t: Task): (s: TaskStatus)
    ensures s.id == t.id && s.name == t.name && s.schedule == t.schedule && s.enabled == t.enabled
    ensures s.lastRun == t.lastRun && s.nextRun == t.nextRun
  {
    TaskStatus(t.id, t.name, t.schedule, t.enabled, t.lastRun, t.nextRun)
  }

  class TaskScheduler {
    var tasks: map<string, Task>
    /** The keys of `tasks` in insertion order, the order the JavaScript `Map` iterates in. */
    var order: seq<string>

    ghost predicate Valid()
      reads this
    {
      Distinct(order)
      && (forall k :: k in tasks <==> k in order)
      && (forall k :: k in tasks ==> tasks[k].id == k)
    }

    /** `new TaskScheduler()`: the five default tasks, enabled, in order. */
    constructor ()
      ensures Valid()
      ensures order == DefaultIds
      ensures forall i :: 0 <= i < 5 ==> tasks[DefaultIds[i]] == DefaultTasks[i]
    {
      tasks := map[];
      order := [];
      new;
      DefaultIdsDistinct();
      var i := 0;
      while i < 5
        invariant 0 <= i <= 5 && Valid()
        invariant order == DefaultIds[..i]
        invariant forall j :: 0 <= j < i ==> DefaultIds[j] in tasks && tasks[DefaultIds[j]] == DefaultTasks[j]
      {
        DefaultStep(tasks, order, i);
        RegisterTask(DefaultTasks[i]);
        i := i + 1;
      }
    }

    /** `registerTask(task)`: a task with the same id is replaced in place. */
    method RegisterTask(task: Task)
      requires Valid()
      modifies this
      ensures Valid()
      ensures tasks == old(tasks)[task.id := task]
      ensures order == if task.id in old(tasks) then old(order) else old(order) + [task.id]
    {
      if task.id !in tasks {
        order := order + [task.id];
      }
      tasks := tasks[task.id := task];
    }

    /** `unregisterTask(taskId)`. */
    method UnregisterTask(taskId: string)
      requires Valid()
      modifies this
      ensures Valid()
      ensures tasks == old(tasks) - {taskId} && order == Without(old(order), taskId)
    {
      tasks := tasks - {taskId};
      order := Without(order, taskId);
    }

    /** `getTasks()`: every task once, in insertion order. */
    function GetTasks(): (r: seq<Task>)
      requires Valid()
      reads this
      ensures |r| == |order| == |tasks|
      ensures forall i :: 0 <= i < |order| ==> r[i] == tasks[order[i]]
    {
      OrderedKeysCard(order, tasks);
      seq(|order|, i requires 0 <= i < |order| reads this requires Valid() => tasks[order[i]])
    }

    /** `getTask(taskId)`. */
    function GetTask(taskId: string): (r: Option<Task>)
      reads this
      ensures r.Some? <==> taskId in tasks
      ensures r.Some? ==> r.value == tasks[taskId]
    {
      if taskId in tasks then Some(tasks[taskId]) else None
    }

    /** `enableTask(taskId)` (`on` true) and `disableTask(taskId)` (`on` false); an unknown id changes nothing. */
    method SetEnabled(taskId: string, on: bool)
      requires Valid()
      modifies this
      ensures Valid() && order == old(order)
      ensures taskId in old(tasks) ==> tasks == old(tasks)[taskId := old(tasks)[taskId].(enabled := on)]
      ensures taskId !in old(tasks) ==> tasks == old(tasks)
    {
      if taskId in tasks {
        tasks := tasks[taskId := tasks[taskId].(enabled := on)];
      }
    }

    /** `executeTask(taskId, env)`. */
    method ExecuteTask(taskId: string, succeeds: string -> bool, now: int) returns (r: RunOutcome)
      requires Valid()
      modifies this
      ensures Valid() && order == old(order)
      ensures r == Outcome(old(tasks), taskId, succeeds)
      ensures tasks == AfterRun(old(tasks), taskId, succeeds, now)
    {
      if taskId !in tasks {
        return NotFound("Task not found: " + taskId);
      }
      var task := tasks[taskId];
      if !task.enabled {
        return Skipped;
      }
      if succeeds(taskId) {
        tasks := tasks[taskId := task.(lastRun := Some(now))];
        r := Ran;
      } else {
        r := TaskFailed;
      }
    }

    /** Runs `ids` in turn, catching each failure and going on with the next. */
    method RunEach(ids: seq<string>, succeeds: string -> bool, now: int) returns (outcomes: seq<RunOutcome>)
      requires Valid()
      requires forall k :: k in ids ==> k in tasks && tasks[k].enabled
      modifies this
      ensures Valid() && order == old(order)
      ensures tasks == AfterRuns(old(tasks), ids, succeeds, now)
      ensures |outcomes| == |ids|
      ensures forall i :: 0 <= i < |ids| ==> outcomes[i] == (if succeeds(ids[i]) then Ran else TaskFailed)
    {
      outcomes := [];
      var i := 0;
      while i < |ids|
        invariant 0 <= i <= |ids| && Valid() && order == old(order)
        invariant tasks == AfterRuns(old(tasks), ids[..i], succeeds, now)
        invariant tasks.Keys == old(tasks).Keys
        invariant forall k :: k in old(tasks) ==> tasks[k].enabled == old(tasks)[k].enabled
        invariant |outcomes| == i
        invariant forall j :: 0 <= j < i ==> outcomes[j] == (if succeeds(ids[j]) then Ran else TaskFailed)
      {
        AfterRunsStep(old(tasks), ids, i, succeeds, now);
        var r := ExecuteTask(ids[i], succeeds, now);
        outcomes := outcomes + [r];
        i := i + 1;
      }
      assert ids[..|ids|] == ids;
    }

    /** `executeAllTasks(env)`: every enabled task is attempted, in order, whatever fails. */
    method ExecuteAllTasks(succeeds: string -> bool, now: int) returns (attempted: seq<string>, outcomes: seq<RunOutcome>)
      requires Valid()
      modifies this
      ensures Valid() && order == old(order)
      ensures attempted == Selected(old(order), old(tasks), None)
      ensures tasks == AfterRuns(old(tasks), attempted, succeeds, now)
      ensures |outcomes| == |attempted|
      ensures forall i :: 0 <= i < |attempted| ==> outcomes[i] == (if succeeds(attempted[i]) then Ran else TaskFailed)
    {
      attempted := Selected(order, tasks, None);
      outcomes := RunEach(attempted, succeeds, now);
    }

    /**
     * `handleScheduledEvent(event, env)`: the enabled tasks whose schedule is
     * the event's cron string. An event without a cron string (`event.cron`
     * undefined) equals no schedule string, so no task runs; that case is not
     * a separate parameter here.
     */
    method HandleScheduledEvent(cron: string, succeeds: string -> bool, now: int) returns (attempted: seq<string>, outcomes: seq<RunOutcome>)
      requires Valid()
      modifies this
      ensures Valid() && order == old(order)
      ensures attempted == Selected(old(order), old(tasks), Some(cron))
      ensures tasks == AfterRuns(old(tasks), attempted, succeeds, now)
      ensures |outcomes| == |attempted|
      ensures forall i :: 0 <= i < |attempted| ==> outcomes[i] == (if succeeds(attempted[i]) then Ran else TaskFailed)
    {
      attempted := Selected(order, tasks, Some(cron));
      outcomes := RunEach(attempted, succeeds, now);
    }

    /** `getStatusReport()`. */
    function GetStatusReport(): (r: StatusReport)
      requires Valid()
      reads this
      ensures r.totalTasks == |tasks| && r.enabledTasks + r.disabledTasks == r.totalTasks
      ensures |r.tasks| == |order| == r.totalTasks
      ensures forall i :: 0 <= i < |order| ==> r.tasks[i] == StatusOf(tasks[order[i]])
    {
      OrderedKeysCard(order, tasks);
      EnabledPlusDisabled(order, tasks);
      StatusReport(|order|, CountEnabled(order, tasks, true), CountEnabled(order, tasks, false),
                   seq(|order|, i requires 0 <= i < |order| reads this requires Valid() => StatusOf(tasks[order[i]])))
    }
  }

  /** A scheduled event runs exactly the enabled tasks with that schedule and no others. */
  lemma ScheduledEventStamps(order: seq<string>, tasks: map<string, Task>, cron: string, succeeds: string -> bool, now: int, k: string)
    requires forall x :: x in order ==> x in tasks
    requires k in tasks
    ensures var after := AfterRuns(tasks, Selected(order, tasks, Some(cron)), succeeds, now);
            after[k].lastRun == (if k in order && tasks[k].enabled && tasks[k].schedule == cron && succeeds(k)
                                 then Some(now) else tasks[k].lastRun)
  {
    AfterRunsStamps(tasks, Selected(order, tasks, Some(cron)), succeeds, now);
  }
}
