/**
 * The execution tracer of the v3 pipeline
 * (functions/api/pipeline-v3/visualization/ExecutionTracer.ts): sessions
 * keyed by id, each with a bounded list of trace events, listeners per
 * event type, and the timeline and statistics derived from a session.
 * Session ids, event ids and ISO timestamps come from the clock and the
 * random generator, so they are parameters here.
 */
module Tracing {
  import opened Common
  import opened Execution
  import opened StateManagement

  datatype EventType =
    | WorkflowStart | WorkflowComplete | WorkflowError
    | NodeStart | NodeComplete | NodeError | NodeSkip
    | DataFlow | StateChange

  /** The `data` of an event, by the call that made it. */
  datatype EventData =
    | StartData(workflowName: string)
    | SummaryData(summary: ExecutionSummary)
    | InputData(input: Value)
    | OutputData(output: Value)
    | FlowData(fromNode: string, toNode: string, payload: Option<Value>)
    | StateData(fromState: string, toState: string)

  datatype ErrorInfo = ErrorInfo(message: string, stack: Option<string>)

  datatype TraceEvent = TraceEvent(
    id: string, eventType: EventType, timestamp: string, workflowId: string,
    nodeId: Option<string>, nodeName: Option<string>, data: Option<EventData>,
    error: Option<ErrorInfo>, duration: Option<int>)

  datatype SessionStatus = SessionRunning | SessionCompleted | SessionFailed

  datatype TraceSession = TraceSession(
    sessionId: string, workflowId: string, workflowName: string,
    startTime: string, endTime: Option<string>, status: SessionStatus,
    events: seq<TraceEvent>, summary: Option<ExecutionSummary>)

  datatype TimelineEntry = TimelineEntry(timestamp: string, eventType: EventType, caption: string, duration: Option<int>)

  /** `generateStats` without the floating-point average. */
  datatype Stats = Stats(totalEvents: nat, nodeExecutions: nat, nodeErrors: nat, totalDuration: int)

  /** The string an `ExecutionSummary` carries as its status. */
  function SummaryStatusName(s: SummaryStatus): string
  {
    match s
    case Success => "success"
    case Error => "error"
    case Partial => "partial"
  }

  /** The most events a session can hold under `maxEvents`. */
  function EventCap(maxEvents: int): nat
  {
    if maxEvents < 0 then 0 else maxEvents
  }

  /** `events.push(e)`, then one `shift()` when the list is longer than `maxEvents`. */
  function PushEvent(events: seq<TraceEvent>, e: TraceEvent, maxEvents: int): (r: seq<TraceEvent>)
    ensures |events| <= EventCap(maxEvents) ==> |r| <= EventCap(maxEvents)
    ensures |r| <= |events| + 1
    ensures r == (events + [e])[|events| + 1 - |r|..]
    ensures |events| < maxEvents ==> r == events + [e]
    ensures maxEvents >= 1 ==> r != [] && r[|r| - 1] == e
  {
    var pushed := events + [e];
    if |pushed| > maxEvents then pushed[1..] else pushed
  }

  /** How many events have type `t`. */
  function CountType(events: seq<TraceEvent>, t: EventType): (n: nat)
    ensures n <= |events|
  {
    if events == [] then 0
    else CountType(events[..|events| - 1], t) + (if events[|events| - 1].eventType == t then 1 else 0)
  }

  /** `e.duration || 0` summed over the `node_complete` events. */
  function CompleteDuration(events: seq<TraceEvent>): int
  {
    if events == [] then 0
    else
      var e := events[|events| - 1];
      CompleteDuration(events[..|events| - 1])
        + (if e.eventType == NodeComplete && e.duration.Some? then e.duration.value else 0)
  }

  /** Events of two different types are counted apart: together they never exceed the list. */
  lemma {:induction false} CountTwoTypes(events: seq<TraceEvent>, t: EventType, u: EventType)
    requires t != u
    ensures CountType(events, t) + CountType(events, u) <= |events|
  {
    if events != [] {
      CountTwoTypes(events[..|events| - 1], t, u);
    }
  }

  /** Appending one event adds one to its own type's count and nothing to the others. */
  lemma CountTypeAppend(events: seq<TraceEvent>, e: TraceEvent, t: EventType)
    ensures CountType(events + [e], t) == CountType(events, t) + (if e.eventType == t then 1 else 0)
  {
    assert (events + [e])[..|events|] == events;
  }

  /** The `workflow_start` event of a new session. */
  function StartEvent(eventId: string, now: string, workflowId: string, workflowName: string): (e: TraceEvent)
    ensures e.eventType == WorkflowStart && e.workflowId == workflowId && e.data == Some(StartData(workflowName))
  {
    TraceEvent(eventId, WorkflowStart, now, workflowId, None, None, Some(StartData(workflowName)), None, None)
  }

  /** The label of a timeline entry: the node name when it is non-empty, else the workflow id. */
  function Label(e: TraceEvent): (r: string)
    ensures e.nodeName.Some? && e.nodeName.value != "" ==> r == e.nodeName.value
    ensures e.nodeName.None? || e.nodeName.value == "" ==> r == e.workflowId
  {
    if e.nodeName.Some? && e.nodeName.value != "" then e.nodeName.value else e.workflowId
  }

  /** `Array.from(sessions.values())`: the sessions of `ids`, in that order. */
  function SessionsOf(ids: seq<string>, sessions: map<string, TraceSession>): (r: seq<TraceSession>)
    requires forall k :: k in ids ==> k in sessions
    ensures |r| == |ids|
    ensures forall i :: 0 <= i < |ids| ==> r[i] == sessions[ids[i]]
  {
    if ids == [] then [] else SessionsOf(ids[..|ids| - 1], sessions) + [sessions[ids[|ids| - 1]]]
  }

  class ExecutionTracer {
    const maxEvents: int
    const captureData: bool
    const captureErrors: bool
    var sessions: map<string, TraceSession>
    /** The keys of `sessions` in insertion order, the order the JavaScript `Map` iterates in. */
    var order: seq<string>
    var listeners: map<EventType, seq<Listener>>

    ghost predicate Valid()
      reads this
    {
      Distinct(order)
      && (forall k :: k in sessions <==> k in order)
      && (forall k :: k in sessions ==> |sessions[k].events| <= EventCap(maxEvents))
    }

    /** `new ExecutionTracer(config)`: 1000 events, data and errors captured, unless configured. */
    constructor (maxEvents: Option<int>, captureData: Option<bool>, captureErrors: Option<bool>)
      ensures Valid()
      ensures this.maxEvents == (if maxEvents.Some? then maxEvents.value else 1000)
      ensures this.captureData == (if captureData.Some? then captureData.value else true)
      ensures this.captureErrors == (if captureErrors.Some? then captureErrors.value else true)
      ensures sessions == map[] && order == [] && listeners == map[]
    {
      this.maxEvents := if maxEvents.Some? then maxEvents.value else 1000;
      this.captureData := if captureData.Some? then captureData.value else true;
      this.captureErrors := if captureErrors.Some? then captureErrors.value else true;
      sessions := map[];
      order := [];
      listeners := map[];
    }

    /** `getWorkflowId(sessionId)`: the session's workflow id, or `unknown` when there is none or it is empty. */
    function WorkflowIdOf(sessionId: string): (r: string)
      reads this
      ensures sessionId in sessions && sessions[sessionId].workflowId != "" ==> r == sessions[sessionId].workflowId
      ensures sessionId !in sessions || sessions[sessionId].workflowId == "" ==> r == "unknown"
    {
      if sessionId in sessions && sessions[sessionId].workflowId != "" then sessions[sessionId].workflowId else "unknown"
    }

    /** `recordEvent(sessionId, event)`: a no-op for an unknown session, else one bounded push. */
    method RecordEvent(sessionId: string, e: TraceEvent)
      requires Valid()
      modifies this
      ensures Valid()
      ensures sessionId !in old(sessions) ==> sessions == old(sessions)
      ensures sessionId in old(sessions) ==> sessions == old(sessions)[sessionId :=
        old(sessions)[sessionId].(events := PushEvent(old(sessions)[sessionId].events, e, maxEvents))]
      ensures order == old(order) && listeners == old(listeners)
    {
      if sessionId in sessions {
        var s := sessions[sessionId];
        sessions := sessions[sessionId := s.(events := PushEvent(s.events, e, maxEvents))];
      }
    }

    /** Adds a fresh running session without events under `sessionId`, replacing any session with that id. */
    method OpenSession(sessionId: string, workflowId: string, workflowName: string, now: string)
      requires Valid()
      modifies this
      ensures Valid()
      ensures sessions == old(sessions)[sessionId := TraceSession(sessionId, workflowId, workflowName, now, None, SessionRunning, [], None)]
      ensures order == if sessionId in old(sessions) then old(order) else old(order) + [sessionId]
      ensures listeners == old(listeners)
    {
      sessions := sessions[sessionId := TraceSession(sessionId, workflowId, workflowName, now, None, SessionRunning, [], None)];
      if sessionId !in order {
        order := order + [sessionId];
      }
    }

    /**
     * `startSession(workflowId, workflowName)` with the generated session
     * id and event id: a running session whose only event is the
     * `workflow_start` event (none at all when `maxEvents` is below one).
     * The clock is read once for the session's `startTime` and again for
     * the event's timestamp `eventNow`.
     */
    method StartSession(sessionId: string, workflowId: string, workflowName: string, startTime: string, eventNow: string,
                        eventId: string)
      returns (id: string)
      requires Valid()
      modifies this
      ensures Valid()
      ensures id == sessionId
      ensures sessions == old(sessions)[sessionId := TraceSession(sessionId, workflowId, workflowName, startTime, None, SessionRunning,
        if maxEvents >= 1 then [StartEvent(eventId, eventNow, workflowId, workflowName)] else [], None)]
      ensures order == if sessionId in old(sessions) then old(order) else old(order) + [sessionId]
      ensures listeners == old(listeners)
    {
      var e := StartEvent(eventId, eventNow, workflowId, workflowName);
      ghost var blank := TraceSession(sessionId, workflowId, workflowName, startTime, None, SessionRunning, [], None);
      ghost var started := blank.(events := if maxEvents >= 1 then [e] else []);
      assert PushEvent([], e, maxEvents) == started.events;
      OpenSession(sessionId, workflowId, workflowName, startTime);
      RecordEvent(sessionId, e);
      UpdateTwice(old(sessions), sessionId, blank, started);
      id := sessionId;
    }

    /**
     * `endSession(sessionId, summary)`: a no-op for an unknown session;
     * otherwise the end time, the summary, status `completed` only for a
     * summary whose status is the string `completed`, and the matching event.
     * The clock is read once for `endTime` and again for the event's
     * timestamp `eventNow`.
     */
    method EndSession(sessionId: string, summary: ExecutionSummary, endTime: string, eventNow: string, eventId: string)
      requires Valid()
      modifies this
      ensures Valid()
      ensures sessionId !in old(sessions) ==> sessions == old(sessions)
      ensures sessionId in old(sessions) ==>
        var s := old(sessions)[sessionId];
        var done := SummaryStatusName(summary.status) == "completed";
        var e := TraceEvent(eventId, if done then WorkflowComplete else WorkflowError, eventNow, s.workflowId,
                            None, None, Some(SummaryData(summary)), None, None);
        sessions == old(sessions)[sessionId := s.(endTime := Some(endTime), status := if done then SessionCompleted else SessionFailed,
                                                  summary := Some(summary), events := PushEvent(s.events, e, maxEvents))]
      ensures order == old(order) && listeners == old(listeners)
    {
      if sessionId !in sessions {
        return;
      }
      var s := sessions[sessionId];
      var done := SummaryStatusName(summary.status) == "completed";
      var e := TraceEvent(eventId, if done then WorkflowComplete else WorkflowError, eventNow, s.workflowId,
                          None, None, Some(SummaryData(summary)), None, None);
      var ended := s.(endTime := Some(endTime), status := if done then SessionCompleted else SessionFailed, summary := Some(summary));
      sessions := sessions[sessionId := ended];
      RecordEvent(sessionId, e);
      UpdateTwice(old(sessions), sessionId, ended, ended.(events := PushEvent(s.events, e, maxEvents)));
    }

    /** `recordNodeStart(sessionId, nodeId, nodeName, input)`: the input is kept only when data is captured. */
    method RecordNodeStart(sessionId: string, nodeId: string, nodeName: string, input: Value, now: string, eventId: string)
      requires Valid()
      modifies this
      ensures Valid()
      ensures sessionId !in old(sessions) ==> sessions == old(sessions)
      ensures sessionId in old(sessions) ==>
        var s := old(sessions)[sessionId];
        var e := TraceEvent(eventId, NodeStart, now, old(WorkflowIdOf(sessionId)), Some(nodeId), Some(nodeName),
                            if captureData then Some(InputData(input)) else None, None, None);
        sessions == old(sessions)[sessionId := s.(events := PushEvent(s.events, e, maxEvents))]
      ensures order == old(order) && listeners == old(listeners)
    {
      var e := TraceEvent(eventId, NodeStart, now, WorkflowIdOf(sessionId), Some(nodeId), Some(nodeName),
                          if captureData then Some(InputData(input)) else None, None, None);
      RecordEvent(sessionId, e);
    }

    /** `recordNodeComplete(sessionId, nodeId, nodeName, output, duration)`: the output is kept only when data is captured. */
    method RecordNodeComplete(sessionId: string, nodeId: string, nodeName: string, output: Value, duration: int, now: string, eventId: string)
      requires Valid()
      modifies this
      ensures Valid()
      ensures sessionId !in old(sessions) ==> sessions == old(sessions)
      ensures sessionId in old(sessions) ==>
        var s := old(sessions)[sessionId];
        var e := TraceEvent(eventId, NodeComplete, now, old(WorkflowIdOf(sessionId)), Some(nodeId), Some(nodeName),
                            if captureData then Some(OutputData(output)) else None, None, Some(duration));
        sessions == old(sessions)[sessionId := s.(events := PushEvent(s.events, e, maxEvents))]
      ensures order == old(order) && listeners == old(listeners)
    {
      var e := TraceEvent(eventId, NodeComplete, now, WorkflowIdOf(sessionId), Some(nodeId), Some(nodeName),
                          if captureData then Some(OutputData(output)) else None, None, Some(duration));
      RecordEvent(sessionId, e);
    }

    /** `recordNodeError(sessionId, nodeId, nodeName, error, duration)`: the stack is kept only when errors are captured. */
    method RecordNodeError(sessionId: string, nodeId: string, nodeName: string, message: string, stack: Option<string>,
                           duration: int, now: string, eventId: string)
      requires Valid()
      modifies this
      ensures Valid()
      ensures sessionId !in old(sessions) ==> sessions == old(sessions)
      ensures sessionId in old(sessions) ==>
        var s := old(sessions)[sessionId];
        var e := TraceEvent(eventId, NodeError, now, old(WorkflowIdOf(sessionId)), Some(nodeId), Some(nodeName), None,
                            Some(ErrorInfo(message, if captureErrors then stack else None)), Some(duration));
        sessions == old(sessions)[sessionId := s.(events := PushEvent(s.events, e, maxEvents))]
      ensures order == old(order) && listeners == old(listeners)
    {
      var e := TraceEvent(eventId, NodeError, now, WorkflowIdOf(sessionId), Some(nodeId), Some(nodeName), None,
                          Some(ErrorInfo(message, if captureErrors then stack else None)), Some(duration));
      RecordEvent(sessionId, e);
    }

    /** `recordDataFlow(sessionId, fromNode, toNode, data)`: the endpoints always, the data only when captured. */
    method RecordDataFlow(sessionId: string, fromNode: string, toNode: string, data: Value, now: string, eventId: string)
      requires Valid()
      modifies this
      ensures Valid()
      ensures sessionId !in old(sessions) ==> sessions == old(sessions)
      ensures sessionId in old(sessions) ==>
        var s := old(sessions)[sessionId];
        var e := TraceEvent(eventId, DataFlow, now, old(WorkflowIdOf(sessionId)), None, None,
                            Some(FlowData(fromNode, toNode, if captureData then Some(data) else None)), None, None);
        sessions == old(sessions)[sessionId := s.(events := PushEvent(s.events, e, maxEvents))]
      ensures order == old(order) && listeners == old(listeners)
    {
      var e := TraceEvent(eventId, DataFlow, now, WorkflowIdOf(sessionId), None, None,
                          Some(FlowData(fromNode, toNode, if captureData then Some(data) else None)), None, None);
      RecordEvent(sessionId, e);
    }

    /** `recordStateChange(sessionId, nodeId, fromState, toState)`. */
    method RecordStateChange(sessionId: string, nodeId: string, fromState: string, toState: string, now: string, eventId: string)
      requires Valid()
      modifies this
      ensures Valid()
      ensures sessionId !in old(sessions) ==> sessions == old(sessions)
      ensures sessionId in old(sessions) ==>
        var s := old(sessions)[sessionId];
        var e := TraceEvent(eventId, StateChange, now, old(WorkflowIdOf(sessionId)), Some(nodeId), None,
                            Some(StateData(fromState, toState)), None, None);
        sessions == old(sessions)[sessionId := s.(events := PushEvent(s.events, e, maxEvents))]
      ensures order == old(order) && listeners == old(listeners)
    {
      var e := TraceEvent(eventId, StateChange, now, WorkflowIdOf(sessionId), Some(nodeId), None,
                          Some(StateData(fromState, toState)), None, None);
      RecordEvent(sessionId, e);
    }

    /** `getSession(sessionId)`. */
    function GetSession(sessionId: string): (r: Option<TraceSession>)
      reads this
      ensures r.Some? <==> sessionId in sessions
      ensures r.Some? ==> r.value == sessions[sessionId]
    {
      if sessionId in sessions then Some(sessions[sessionId]) else None
    }

    /** `getAllSessions()`: every session once, in insertion order. */
    function GetAllSessions(): (r: seq<TraceSession>)
      requires Valid()
      reads this
      ensures |r| == |sessions|
      ensures forall k :: k in sessions ==> sessions[k] in r
      ensures forall s :: s in r ==> exists k :: k in sessions && sessions[k] == s
    {
      var r := SessionsOf(order, sessions);
      KeysMatchOrder();
      forall k | k in sessions
        ensures sessions[k] in r
      {
        var i :| 0 <= i < |order| && order[i] == k;
        assert r[i] == sessions[k];
      }
      r
    }

    /** The number of sessions is the length of the insertion-order list. */
    lemma KeysMatchOrder()
      requires Valid()
      ensures |sessions| == |order|
    {
      DistinctCard(order);
      assert sessions.Keys == set k | k in order;
    }

    /** `clearSession(sessionId)`: only that session goes. */
    method ClearSession(sessionId: string)
      requires Valid()
      modifies this
      ensures Valid()
      ensures sessions == old(sessions) - {sessionId}
      ensures order == Without(old(order), sessionId) && listeners == old(listeners)
    {
      sessions := sessions - {sessionId};
      order := Without(order, sessionId);
    }

    /** `clearAllSessions()`. */
    method ClearAllSessions()
      requires Valid()
      modifies this
      ensures Valid()
      ensures sessions == map[] && order == [] && listeners == old(listeners)
    {
      sessions := map[];
      order := [];
    }

    /** `on(eventType, listener)`: one more registration at the end of that type's list. */
    method On(eventType: EventType, listener: Listener)
      requires Valid()
      modifies this
      ensures Valid()
      ensures listeners == old(listeners)[eventType :=
        (if eventType in old(listeners) then old(listeners)[eventType] else []) + [listener]]
      ensures sessions == old(sessions) && order == old(order)
    {
      var current := if eventType in listeners then listeners[eventType] else [];
      listeners := listeners[eventType := current + [listener]];
    }

    /** `off(eventType, listener)`: the first registration of the listener goes, if there is one. */
    method Off(eventType: EventType, listener: Listener)
      requires Valid()
      modifies this
      ensures Valid()
      ensures eventType !in old(listeners) ==> listeners == old(listeners)
      ensures eventType in old(listeners) ==> listeners == old(listeners)[eventType := RemoveFirst(old(listeners)[eventType], listener)]
      ensures sessions == old(sessions) && order == old(order)
    {
      if eventType in listeners {
        listeners := listeners[eventType := RemoveFirst(listeners[eventType], listener)];
      }
    }

    /** `generateTimeline(sessionId)`: one entry per event, in order; none for an unknown session. */
    function GenerateTimeline(sessionId: string): (r: seq<TimelineEntry>)
      reads this
      ensures sessionId !in sessions ==> r == []
      ensures sessionId in sessions ==> |r| == |sessions[sessionId].events|
      ensures sessionId in sessions ==> forall i :: 0 <= i < |r| ==>
        var e := sessions[sessionId].events[i];
        r[i].timestamp == e.timestamp && r[i].eventType == e.eventType && r[i].duration == e.duration && r[i].caption == Label(e)
    {
      if sessionId !in sessions then []
      else
        var es := sessions[sessionId].events;
        seq(|es|, i requires 0 <= i < |es| => TimelineEntry(es[i].timestamp, es[i].eventType, Label(es[i]), es[i].duration))
    }

    /** `generateStats(sessionId)` without the average; all zeros for an unknown session. */
    function GenerateStats(sessionId: string): (r: Stats)
      reads this
      ensures sessionId !in sessions ==> r == Stats(0, 0, 0, 0)
      ensures sessionId in sessions ==>
        var es := sessions[sessionId].events;
        r.totalEvents == |es| && r.nodeExecutions == CountType(es, NodeComplete)
        && r.nodeErrors == CountType(es, NodeError) && r.totalDuration == CompleteDuration(es)
      ensures r.nodeExecutions + r.nodeErrors <= r.totalEvents
    {
      if sessionId !in sessions then Stats(0, 0, 0, 0)
      else
        var es := sessions[sessionId].events;
        CountTwoTypes(es, NodeComplete, NodeError);
        Stats(|es|, CountType(es, NodeComplete), CountType(es, NodeError), CompleteDuration(es))
    }
  }

  /** Below the bound, nothing is dropped. */
  lemma PushNoDrop(events: seq<TraceEvent>, e: TraceEvent, maxEvents: int)
    requires |events| < maxEvents
    ensures PushEvent(events, e, maxEvents) == events + [e]
  {
  }

  /** A second update of the same key overrides the first. */
  lemma UpdateTwice<K, V>(m: map<K, V>, k: K, a: V, b: V)
    ensures m[k := a][k := b] == m[k := b]
  {
  }

  /** No `ExecutionSummary` status is the string `completed`, so `endSession` always marks the session failed. */
  lemma EndSessionNeverCompletes(summary: ExecutionSummary)
    ensures SummaryStatusName(summary.status) != "completed"
  {
  }

  /**
   * The status `endSession` evidently means to give a session: a
   * successful summary completes it, an erroneous or partial one fails
   * it, and no session is left running.
   */
  function EndStatus(s: SummaryStatus): (r: SessionStatus)
    ensures r != SessionRunning
    ensures r == SessionCompleted <==> s == Success
    ensures r == SessionFailed <==> s != Success
  {
    if s == Success then SessionCompleted else SessionFailed
  }

  /**
   * When no event has to be dropped, recording an event adds exactly one
   * to the count of its own type and nothing to any other: a
   * `node_complete` event raises the node executions of `generateStats`
   * by one and leaves its errors alone.
   */
  lemma PushCounted(events: seq<TraceEvent>, e: TraceEvent, maxEvents: int, t: EventType)
    requires |events| < maxEvents
    ensures CountType(PushEvent(events, e, maxEvents), t) == CountType(events, t) + (if e.eventType == t then 1 else 0)
  {
    PushNoDrop(events, e, maxEvents);
    CountTypeAppend(events, e, t);
  }
}
