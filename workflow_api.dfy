/**
 * The v3 workflow API (functions/api/pipeline-v3/api/WorkflowAPI.ts): an
 * in-memory store of workflow definitions keyed by id, with create, read,
 * update, delete and list operations answering in the API's response
 * envelope, plus execution history and statistics read from the tracer the
 * API owns. The clock is a parameter (`now`, and `time` turning an ISO
 * timestamp into milliseconds).
 */
module WorkflowService {
  import opened Common
  import opened Tracing
  import Flowchart

  const ApiVersion := "3.0.0"

  /** The `metadata` object the API keeps on each definition. */
  datatype Metadata = Metadata(created: Option<string>, updated: Option<string>, others: map<string, Value>)

  datatype Definition = Definition(
    id: string, name: string, version: string, description: string,
    nodes: seq<Flowchart.ChartNode>, connections: seq<Flowchart.ChartLink>,
    settings: Option<Value>, metadata: Option<Metadata>)

  /** A `Partial<WorkflowDefinition>`: `None` is a key the update leaves out. */
  datatype Patch = Patch(
    id: Option<string>, name: Option<string>, version: Option<string>, description: Option<string>,
    nodes: Option<seq<Flowchart.ChartNode>>, connections: Option<seq<Flowchart.ChartLink>>,
    settings: Option<Value>, metadata: Option<Metadata>)

  datatype ApiError = ApiError(code: string, message: string, details: Option<string>)

  /** The response envelope; `timestamp` and `version` form its `metadata`. */
  datatype Response<T> = Response(success: bool, data: Option<T>, error: Option<ApiError>, timestamp: string, version: string)

  datatype ListItem = ListItem(
    id: string, name: string, version: string, status: string,
    nodeCount: nat, connectionCount: nat, lastModified: string)

  /** `getStats` without the floating-point success rate. */
  datatype ApiStats = ApiStats(totalWorkflows: nat, totalExecutions: nat, successfulExecutions: nat, failedExecutions: nat)

  /** `createErrorResponse(code, message, error)`. */
  function ErrorResponse<T>(code: string, message: string, details: Option<string>, now: string): (r: Response<T>)
    ensures !r.success && r.data.None?
    ensures r.error == Some(ApiError(code, message, details))
    ensures r.timestamp == now && r.version == ApiVersion
  {
    Response(false, None, Some(ApiError(code, message, details)), now, ApiVersion)
  }

  /** A successful response carrying `data`. */
  function Success<T>(data: Option<T>, now: string): (r: Response<T>)
    ensures r.success && r.error.None? && r.data == data
    ensures r.timestamp == now && r.version == ApiVersion
  {
    Response(true, data, None, now, ApiVersion)
  }

  /**
   * The definition `createWorkflow` stores: its metadata with `created` and
   * `updated` set from two separate clock readings.
   */
  function Stamped(wf: Definition, created: string, updated: string): (r: Definition)
    ensures r.metadata.Some? && r.metadata.value.created == Some(created) && r.metadata.value.updated == Some(updated)
    ensures r.metadata.value.others == (if wf.metadata.Some? then wf.metadata.value.others else map[])
    ensures r.(metadata := wf.metadata) == wf
  {
    var others := if wf.metadata.Some? then wf.metadata.value.others else map[];
    wf.(metadata := Some(Metadata(Some(created), Some(updated), others)))
  }

  /** The later value of a spread key: the update's when it has the key. */
  function Override<T>(base: T, over: Option<T>): T
  {
    if over.Some? then over.value else base
  }

  /** `{...base, ...over, updated: now}` on two optional metadata objects. */
  function MergeMetadata(base: Option<Metadata>, over: Option<Metadata>, now: string): (m: Metadata)
    ensures m.updated == Some(now)
    ensures over.Some? && over.value.created.Some? ==> m.created == over.value.created
    ensures (over.None? || over.value.created.None?) ==> m.created == (if base.Some? then base.value.created else None)
    ensures forall k :: k in m.others <==>
              (base.Some? && k in base.value.others) || (over.Some? && k in over.value.others)
    ensures forall k :: over.Some? && k in over.value.others ==> m.others[k] == over.value.others[k]
  {
    var b := if base.Some? then base.value else Metadata(None, None, map[]);
    var o := if over.Some? then over.value else Metadata(None, None, map[]);
    Metadata(if o.created.Some? then o.created else b.created, Some(now), b.others + o.others)
  }

  /** The definition `updateWorkflow` stores: the update spread over the stored one, id kept. */
  function Updated(wf: Definition, p: Patch, now: string): (r: Definition)
    ensures r.id == wf.id
    ensures r.name == Override(wf.name, p.name) && r.version == Override(wf.version, p.version)
    ensures r.description == Override(wf.description, p.description)
    ensures r.nodes == Override(wf.nodes, p.nodes) && r.connections == Override(wf.connections, p.connections)
    ensures r.settings == (if p.settings.Some? then p.settings else wf.settings)
    ensures r.metadata == Some(MergeMetadata(wf.metadata, p.metadata, now))
  {
    Definition(
      wf.id, Override(wf.name, p.name), Override(wf.version, p.version),
      Override(wf.description, p.description), Override(wf.nodes, p.nodes),
      Override(wf.connections, p.connections),
      if p.settings.Some? then p.settings else wf.settings,
      Some(MergeMetadata(wf.metadata, p.metadata, now)))
  }

  /** Applying the same update twice at the same time stores what applying it once stores. */
  lemma UpdateIdempotent(wf: Definition, p: Patch, now: string)
    ensures Updated(Updated(wf, p, now), p, now) == Updated(wf, p, now)
  {
    var m1 := MergeMetadata(wf.metadata, p.metadata, now);
    var m2 := MergeMetadata(Some(m1), p.metadata, now);
    assert m2.others == m1.others;
  }

  /** An update naming another id still leaves the stored id alone. */
  lemma UpdateIgnoresId(wf: Definition, p: Patch, now: string)
    ensures Updated(wf, p, now) == Updated(wf, p.(id := None), now)
    ensures Updated(wf, p, now).id == wf.id
  {
  }

  /** `wf.metadata?.updated || wf.metadata?.created || now`. */
  function LastModified(wf: Definition, now: string): (s: string)
    ensures wf.metadata.Some? && Flowchart.Present(wf.metadata.value.updated) ==> s == wf.metadata.value.updated.value
    ensures s == now || (wf.metadata.Some? && (Some(s) == wf.metadata.value.updated || Some(s) == wf.metadata.value.created))
    ensures s == "" ==> now == ""
  {
    if wf.metadata.Some? && Flowchart.Present(wf.metadata.value.updated) then wf.metadata.value.updated.value
    else if wf.metadata.Some? && Flowchart.Present(wf.metadata.value.created) then wf.metadata.value.created.value
    else now
  }

  /** One entry of `listWorkflows`. */
  function Item(wf: Definition, now: string): (r: ListItem)
    ensures r.id == wf.id && r.name == wf.name && r.version == wf.version && r.status == "active"
    ensures r.nodeCount == |wf.nodes| && r.connectionCount == |wf.connections|
    ensures r.lastModified == LastModified(wf, now)
  {
    ListItem(wf.id, wf.name, wf.version, "active", |wf.nodes|, |wf.connections|, LastModified(wf, now))
  }

  /** The entries of `listWorkflows`, in the map's insertion order. */
  function Items(order: seq<string>, workflows: map<string, Definition>, now: string): (r: seq<ListItem>)
    requires forall i :: 0 <= i < |order| ==> order[i] in workflows
    ensures |r| == |order|
    ensures forall i :: 0 <= i < |order| ==> r[i] == Item(workflows[order[i]], now)
  {
    if order == [] then []
    else Items(order[..|order| - 1], workflows, now) + [Item(workflows[order[|order| - 1]], now)]
  }

  /** How many sessions have status `st`. */
  function CountStatus(sessions: seq<TraceSession>, st: SessionStatus): (n: nat)
    ensures n <= |sessions|
  {
    if sessions == [] then 0
    else CountStatus(sessions[..|sessions| - 1], st) + (if sessions[|sessions| - 1].status == st then 1 else 0)
  }

  /** The sessions' statuses, in order. */
  function StatusesOf(sessions: seq<TraceSession>): (r: seq<SessionStatus>)
    ensures |r| == |sessions| && forall i :: 0 <= i < |sessions| ==> r[i] == sessions[i].status
  {
    seq(|sessions|, i requires 0 <= i < |sessions| => sessions[i].status)
  }

  /** The count is how often the status occurs among the sessions' statuses, as `filter(...).length` gives. */
  lemma {:induction false} CountStatusCountsOccurrences(sessions: seq<TraceSession>, st: SessionStatus)
    ensures CountStatus(sessions, st) == multiset(StatusesOf(sessions))[st]
  {
    if sessions != [] {
      var n := |sessions| - 1;
      CountStatusCountsOccurrences(sessions[..n], st);
      assert StatusesOf(sessions) == StatusesOf(sessions[..n]) + [sessions[n].status];
    }
  }

  /** Every session is running, completed or failed, and exactly one of them. */
  lemma {:induction false} StatusesPartition(sessions: seq<TraceSession>)
    ensures CountStatus(sessions, SessionCompleted) + CountStatus(sessions, SessionFailed)
            + CountStatus(sessions, SessionRunning) == |sessions|
  {
    if sessions != [] {
      StatusesPartition(sessions[..|sessions| - 1]);
    }
  }

  /** Without a running session, successful and failed executions add up to all executions. */
  lemma NoneRunningAllCounted(sessions: seq<TraceSession>)
    requires forall i :: 0 <= i < |sessions| ==> sessions[i].status != SessionRunning
    ensures CountStatus(sessions, SessionCompleted) + CountStatus(sessions, SessionFailed) == |sessions|
  {
    StatusesPartition(sessions);
    NoneRunningCount(sessions);
  }

  lemma {:induction false} NoneRunningCount(sessions: seq<TraceSession>)
    requires forall i :: 0 <= i < |sessions| ==> sessions[i].status != SessionRunning
    ensures CountStatus(sessions, SessionRunning) == 0
  {
    if sessions != [] {
      NoneRunningCount(sessions[..|sessions| - 1]);
    }
  }

  /** The statistics of `getStats` over the tracer's sessions. */
  function StatsOf(workflowCount: nat, sessions: seq<TraceSession>): (r: ApiStats)
    ensures r.totalWorkflows == workflowCount && r.totalExecutions == |sessions|
    ensures r.successfulExecutions == multiset(StatusesOf(sessions))[SessionCompleted]
    ensures r.failedExecutions == multiset(StatusesOf(sessions))[SessionFailed]
    ensures r.successfulExecutions + r.failedExecutions + multiset(StatusesOf(sessions))[SessionRunning] == r.totalExecutions
  {
    StatusesPartition(sessions);
    CountStatusCountsOccurrences(sessions, SessionCompleted);
    CountStatusCountsOccurrences(sessions, SessionFailed);
    CountStatusCountsOccurrences(sessions, SessionRunning);
    ApiStats(workflowCount, |sessions|, CountStatus(sessions, SessionCompleted), CountStatus(sessions, SessionFailed))
  }

  /** Newest first: `time` is `new Date(...).getTime()` on the start time. */
  ghost predicate NewestFirst(s: seq<TraceSession>, time: string -> int)
  {
    forall i, j :: 0 <= i < j < |s| ==> time(s[i].startTime) >= time(s[j].startTime)
  }

  /** Puts `x` before the first session not newer than it, as a stable sort does. */
  function Insert(x: TraceSession, s: seq<TraceSession>, time: string -> int): (r: seq<TraceSession>)
    requires NewestFirst(s, time)
    ensures NewestFirst(r, time)
    ensures multiset(r) == multiset(s) + multiset{x}
    ensures |r| == |s| + 1
  {
    if s == [] || time(x.startTime) >= time(s[0].startTime) then [x] + s
    else
      var rest := Insert(x, s[1..], time);
      assert s == [s[0]] + s[1..];
      BehindHead(x, s, rest, time);
      [s[0]] + rest
  }

  /** A session older than `x` stays ahead of the insertion into the rest. */
  lemma BehindHead(x: TraceSession, s: seq<TraceSession>, rest: seq<TraceSession>, time: string -> int)
    requires s != [] && NewestFirst(s, time) && time(x.startTime) < time(s[0].startTime)
    requires NewestFirst(rest, time) && multiset(rest) == multiset(s[1..]) + multiset{x}
    ensures NewestFirst([s[0]] + rest, time)
  {
    forall k | 0 <= k < |rest|
      ensures time(s[0].startTime) >= time(rest[k].startTime)
    {
      assert rest[k] in multiset(rest);
      if rest[k] != x {
        assert rest[k] in multiset(s[1..]);
        var j :| 0 <= j < |s[1..]| && s[1..][j] == rest[k];
        assert s[j + 1] == rest[k];
      }
    }
    var r := [s[0]] + rest;
    forall i, j | 0 <= i < j < |r| ensures time(r[i].startTime) >= time(r[j].startTime) {
      if i > 0 {
        assert r[i] == rest[i - 1] && r[j] == rest[j - 1];
      } else {
        assert r[j] == rest[j - 1];
      }
    }
  }

  /** The sessions sorted newest first, ties kept in their original order. */
  function SortByStart(s: seq<TraceSession>, time: string -> int): (r: seq<TraceSession>)
    ensures NewestFirst(r, time)
    ensures multiset(r) == multiset(s)
    ensures |r| == |s|
  {
    if s == [] then []
    else
      assert s == [s[0]] + s[1..];
      Insert(s[0], SortByStart(s[1..], time), time)
  }

  /** `slice(0, end)` on a length-`len` array: the end of the kept prefix. */
  function SliceEnd(len: nat, end: int): (r: nat)
    ensures r <= len
    ensures 0 <= end <= len ==> r == end
    ensures end > len ==> r == len
    ensures end < 0 ==> r == (if len + end < 0 then 0 else len + end)
  {
    if end < 0 then (if len + end < 0 then 0 else len + end)
    else if end > len then len else end
  }

  /** `getExecutionHistory(limit)`: the newest `limit` sessions, newest first. */
  function History(sessions: seq<TraceSession>, limit: int, time: string -> int): (r: seq<TraceSession>)
    ensures NewestFirst(r, time)
    ensures |r| == SliceEnd(|sessions|, limit)
    ensures multiset(r) <= multiset(sessions)
    ensures 0 <= limit && |sessions| <= limit ==> multiset(r) == multiset(sessions)
  {
    var sorted := SortByStart(sessions, time);
    var k := SliceEnd(|sessions|, limit);
    assert sorted == sorted[..k] + sorted[k..];
    assert |sessions| <= limit ==> sorted[..k] == sorted;
    sorted[..k]
  }

  /** A session left out of the history is no newer than any session in it. */
  lemma HistoryKeepsNewest(sessions: seq<TraceSession>, limit: int, time: string -> int, x: TraceSession, y: TraceSession)
    requires x in History(sessions, limit, time)
    requires multiset(History(sessions, limit, time))[y] < multiset(sessions)[y]
    ensures time(x.startTime) >= time(y.startTime)
  {
    var sorted := SortByStart(sessions, time);
    var k := SliceEnd(|sessions|, limit);
    assert History(sessions, limit, time) == sorted[..k];
    DroppedIsBehind(sorted, k, y);
    var j :| k <= j < |sorted| && sorted[j] == y;
    var i :| 0 <= i < k && sorted[i] == x;
    NewestFirstAt(sorted, time, i, j);
  }

  lemma DroppedIsBehind(s: seq<TraceSession>, k: nat, y: TraceSession)
    requires k <= |s| && multiset(s[..k])[y] < multiset(s)[y]
    ensures exists j :: k <= j < |s| && s[j] == y
  {
    assert s == s[..k] + s[k..];
    assert multiset(s) == multiset(s[..k]) + multiset(s[k..]);
    assert y in s[k..];
    var j :| 0 <= j < |s[k..]| && s[k..][j] == y;
    assert s[k + j] == y;
  }

  lemma NewestFirstAt(s: seq<TraceSession>, time: string -> int, i: nat, j: nat)
    requires NewestFirst(s, time) && i < j < |s|
    ensures time(s[i].startTime) >= time(s[j].startTime)
  {
  }

  /** `getExecutionHistory(limit)` in the response envelope. */
  function HistoryResponse(sessions: seq<TraceSession>, limit: int, time: string -> int, now: string): (r: Response<seq<TraceSession>>)
    ensures r.success && r.data.Some?
    ensures |r.data.value| <= limit || limit < 0
    ensures multiset(r.data.value) <= multiset(sessions)
  {
    Success(Some(History(sessions, limit, time)), now)
  }

  class WorkflowApi {
    /** The tracer the API owns; nothing in the API starts a session on it (see ExecuteWorkflow). */
    const tracer: ExecutionTracer
    var workflows: map<string, Definition>
    /** The keys of `workflows` in insertion order, as a JavaScript `Map` keeps them. */
    var order: seq<string>

    ghost predicate Valid()
      reads this, tracer
    {
      tracer.Valid()
      && Distinct(order)
      && (forall k :: k in workflows <==> k in order)
      && (forall k :: k in workflows ==> workflows[k].id == k && k != "")
      && (forall k :: k in workflows ==> workflows[k].metadata.Some? && workflows[k].metadata.value.updated.Some?)
    }

    /** `new WorkflowAPI()`: an empty store and a tracer capturing data and errors. */
    constructor ()
      ensures Valid() && fresh(tracer)
      ensures workflows == map[] && order == []
      ensures tracer.sessions == map[] && tracer.captureData && tracer.captureErrors && tracer.maxEvents == 1000
    {
      tracer := new ExecutionTracer(None, Some(true), Some(true));
      workflows := map[];
      order := [];
    }

    /** `listWorkflows()`: one entry per stored workflow, in insertion order. */
    function ListWorkflows(now: string): (r: Response<seq<ListItem>>)
      requires Valid()
      reads this, tracer
      ensures r.success && r.data.Some? && |r.data.value| == |order| == |workflows|
      ensures forall i :: 0 <= i < |order| ==> order[i] in workflows && r.data.value[i] == Item(workflows[order[i]], now)
      ensures forall k :: k in workflows ==> exists i :: 0 <= i < |r.data.value| && r.data.value[i].id == k
    {
      assert forall i :: 0 <= i < |order| ==> order[i] in workflows;
      var items := Items(order, workflows, now);
      OrderedKeysCard(order, workflows);
      assert forall k :: k in workflows ==> exists i :: 0 <= i < |items| && items[i].id == k by {
        forall k | k in workflows
          ensures exists i :: 0 <= i < |items| && items[i].id == k
        {
          var i :| 0 <= i < |order| && order[i] == k;
          assert items[i].id == k;
        }
      }
      Success(Some(items), now)
    }

    /** `getWorkflow(workflowId)`. */
    function GetWorkflow(workflowId: string, now: string): (r: Response<Definition>)
      reads this
      ensures r.success <==> workflowId in workflows
      ensures r.success ==> r.data == Some(workflows[workflowId])
      ensures !r.success ==> r == ErrorResponse("WORKFLOW_NOT_FOUND", "Workflow not found: " + workflowId, None, now)
    {
      if workflowId in workflows then Success(Some(workflows[workflowId]), now)
      else ErrorResponse("WORKFLOW_NOT_FOUND", "Workflow not found: " + workflowId, None, now)
    }

    /**
     * `createWorkflow(workflow)`. The clock is read separately for
     * `created`, for `updated` and for the response's timestamp `now`.
     */
    method CreateWorkflow(wf: Definition, created: string, updated: string, now: string) returns (r: Response<Definition>)
      requires Valid()
      modifies this
      ensures Valid()
      ensures (wf.id == "" || wf.name == "") ==>
                r == ErrorResponse("INVALID_WORKFLOW", "Workflow must have id and name", None, now)
                && workflows == old(workflows) && order == old(order)
      ensures (wf.id != "" && wf.name != "" && wf.id in old(workflows)) ==>
                r == ErrorResponse("WORKFLOW_EXISTS", "Workflow already exists: " + wf.id, None, now)
                && workflows == old(workflows) && order == old(order)
      ensures (wf.id != "" && wf.name != "" && wf.id !in old(workflows)) ==>
                r == Success(Some(Stamped(wf, created, updated)), now)
                && workflows == old(workflows)[wf.id := Stamped(wf, created, updated)] && order == old(order) + [wf.id]
    {
      if wf.id == "" || wf.name == "" {
        return ErrorResponse("INVALID_WORKFLOW", "Workflow must have id and name", None, now);
      }
      if wf.id in workflows {
        return ErrorResponse("WORKFLOW_EXISTS", "Workflow already exists: " + wf.id, None, now);
      }
      var stored := Stamped(wf, created, updated);
      workflows := workflows[wf.id := stored];
      order := order + [wf.id];
      r := Success(Some(stored), now);
    }

    /**
     * `updateWorkflow(workflowId, updates)`: the key keeps its place in the
     * order. The clock is read once for `updated` and again for the
     * response's timestamp `now`.
     */
    method UpdateWorkflow(workflowId: string, p: Patch, updated: string, now: string) returns (r: Response<Definition>)
      requires Valid()
      modifies this
      ensures Valid()
      ensures order == old(order)
      ensures workflowId !in old(workflows) ==>
                r == ErrorResponse("WORKFLOW_NOT_FOUND", "Workflow not found: " + workflowId, None, now)
                && workflows == old(workflows)
      ensures workflowId in old(workflows) ==>
                r == Success(Some(Updated(old(workflows)[workflowId], p, updated)), now)
                && workflows == old(workflows)[workflowId := Updated(old(workflows)[workflowId], p, updated)]
    {
      if workflowId !in workflows {
        return ErrorResponse("WORKFLOW_NOT_FOUND", "Workflow not found: " + workflowId, None, now);
      }
      var stored := Updated(workflows[workflowId], p, updated);
      workflows := workflows[workflowId := stored];
      r := Success(Some(stored), now);
    }

    /** `deleteWorkflow(workflowId)`: only that id leaves the store. */
    method DeleteWorkflow(workflowId: string, now: string) returns (r: Response<()>)
      requires Valid()
      modifies this
      ensures Valid()
      ensures workflowId !in old(workflows) ==>
                r == ErrorResponse("WORKFLOW_NOT_FOUND", "Workflow not found: " + workflowId, None, now)
                && workflows == old(workflows) && order == old(order)
      ensures workflowId in old(workflows) ==>
                r == Success(None, now) && workflows == old(workflows) - {workflowId}
                && order == Without(old(order), workflowId)
    {
      if workflowId !in workflows {
        return ErrorResponse("WORKFLOW_NOT_FOUND", "Workflow not found: " + workflowId, None, now);
      }
      workflows := workflows - {workflowId};
      order := Without(order, workflowId);
      r := Success(None, now);
    }

    /**
     * `executeWorkflow(request)` as the code stands: the engine has no
     * `loadWorkflow`, so every request for a stored workflow ends in the
     * catch branch before a session is started.
     */
    function ExecuteWorkflow(workflowId: string, now: string): (r: Response<()>)
      reads this
      ensures !r.success
      ensures workflowId !in workflows ==>
                r == ErrorResponse("WORKFLOW_NOT_FOUND", "Workflow not found: " + workflowId, None, now)
      ensures workflowId in workflows ==>
                r == ErrorResponse("EXECUTE_WORKFLOW_ERROR", "Failed to execute workflow",
                                   Some("this.engine.loadWorkflow is not a function"), now)
    {
      if workflowId !in workflows then ErrorResponse("WORKFLOW_NOT_FOUND", "Workflow not found: " + workflowId, None, now)
      else ErrorResponse("EXECUTE_WORKFLOW_ERROR", "Failed to execute workflow",
                         Some("this.engine.loadWorkflow is not a function"), now)
    }

    /** `getWorkflowVisualization(workflowId)`: the Mermaid chart drawn top-down. */
    function GetWorkflowVisualization(workflowId: string, now: string): (r: Response<string>)
      reads this
      ensures r.success <==> workflowId in workflows
      ensures r.success ==> r.data == Some(Flowchart.GenerateMermaid(Flowchart.ChartConfig("TD", false), Chart(workflows[workflowId])))
      ensures !r.success ==> r == ErrorResponse("WORKFLOW_NOT_FOUND", "Workflow not found: " + workflowId, None, now)
    {
      if workflowId !in workflows then ErrorResponse("WORKFLOW_NOT_FOUND", "Workflow not found: " + workflowId, None, now)
      else Success(Some(Flowchart.GenerateMermaid(Flowchart.NewConfig(Some("TD"), None), Chart(workflows[workflowId]))), now)
    }

    /** `getExecutionHistory(limit)`. */
    function GetExecutionHistory(limit: int, time: string -> int, now: string): (r: Response<seq<TraceSession>>)
      requires Valid()
      reads this, tracer
      ensures r.success && r.data == Some(History(tracer.GetAllSessions(), limit, time))
      ensures forall s :: s in r.data.value ==> exists k :: k in tracer.sessions && tracer.sessions[k] == s
    {
      var all := tracer.GetAllSessions();
      var h := History(all, limit, time);
      assert forall s :: s in h ==> s in all by {
        forall s | s in h
          ensures s in all
        {
          assert s in multiset(h);
        }
      }
      HistoryResponse(all, limit, time, now)
    }

    /** `getExecution(sessionId)`. */
    function GetExecution(sessionId: string, now: string): (r: Response<TraceSession>)
      reads this, tracer
      ensures r.success <==> sessionId in tracer.sessions
      ensures r.success ==> r.data == Some(tracer.sessions[sessionId])
      ensures !r.success ==> r == ErrorResponse("SESSION_NOT_FOUND", "Session not found: " + sessionId, None, now)
    {
      var s := tracer.GetSession(sessionId);
      if s.None? then ErrorResponse("SESSION_NOT_FOUND", "Session not found: " + sessionId, None, now)
      else Success(Some(s.value), now)
    }

    /** `getStats()`. */
    function GetStats(now: string): (r: Response<ApiStats>)
      requires Valid()
      reads this, tracer
      ensures r.success && r.data.Some?
      ensures r.data.value.totalWorkflows == |workflows| && r.data.value.totalExecutions == |tracer.sessions|
      ensures r.data.value.successfulExecutions == multiset(StatusesOf(tracer.GetAllSessions()))[SessionCompleted]
      ensures r.data.value.failedExecutions == multiset(StatusesOf(tracer.GetAllSessions()))[SessionFailed]
      ensures r.data.value.successfulExecutions + r.data.value.failedExecutions
              + multiset(StatusesOf(tracer.GetAllSessions()))[SessionRunning] == r.data.value.totalExecutions
    {
      OrderedKeysCard(order, workflows);
      Success(Some(StatsOf(|workflows|, tracer.GetAllSessions())), now)
    }
  }

  /** The chart `FlowDiagram` draws for a stored definition. */
  function Chart(wf: Definition): (c: Flowchart.ChartWorkflow)
    ensures c.id == wf.id && c.name == wf.name && c.version == wf.version
    ensures c.nodes == wf.nodes && c.connections == wf.connections
  {
    Flowchart.ChartWorkflow(wf.id, wf.name, wf.version, wf.nodes, wf.connections)
  }
}
