/**
 * The v3 pipeline's state manager (functions/api/pipeline-v3/StateManager.ts):
 * the state of every workflow and of its nodes, the node currently running,
 * start and end times, a bounded history of state changes and the listener
 * lists. The clock is a parameter; listener callbacks are identities whose
 * effects are not modelled.
 */
module StateManagement {
  import opened Common

  datatype WorkflowState = WfPending | WfRunning | WfCompleted | WfFailed | WfPaused | WfCancelled
  datatype NodeState = Pending | Running | Completed | Failed | Skipped
  datatype TargetType = WorkflowTarget | NodeTarget

  function WorkflowStateName(s: WorkflowState): string
  {
    match s
    case WfPending => "pending"
    case WfRunning => "running"
    case WfCompleted => "completed"
    case WfFailed => "failed"
    case WfPaused => "paused"
    case WfCancelled => "cancelled"
  }

  function NodeStateName(s: NodeState): string
  {
    match s
    case Pending => "pending"
    case Running => "running"
    case Completed => "completed"
    case Failed => "failed"
    case Skipped => "skipped"
  }

  /** The states that set a workflow's end time. */
  predicate Final(s: WorkflowState)
  {
    s == WfCompleted || s == WfFailed || s == WfCancelled
  }

  datatype StateChangeRecord = StateChangeRecord(
    targetId: string, targetType: TargetType, oldState: string, newState: string,
    timestamp: int, reason: Option<string>)

  /** A workflow's entry; times are absent until set. */
  datatype WorkflowInfo = WorkflowInfo(
    workflowId: string, state: WorkflowState, startTime: Option<int>, endTime: Option<int>,
    nodeStates: map<string, NodeState>, currentNode: Option<string>)

  /** `!stateInfo.startTime` and `!stateInfo.endTime`: absent or 0. */
  predicate Unset(t: Option<int>)
  {
    t.None? || t.value == 0
  }

  /**
   * What the manager keeps true of each entry: it is filed under its own
   * id, the current node is a running node of the workflow, a running
   * workflow has a start time and a finished one an end time.
   */
  predicate InfoOk(id: string, info: WorkflowInfo)
  {
    && info.workflowId == id
    && (info.currentNode.Some? ==> info.currentNode.value in info.nodeStates
                                   && info.nodeStates[info.currentNode.value] == Running)
    && (info.state == WfRunning ==> info.startTime.Some?)
    && (Final(info.state) ==> info.endTime.Some?)
  }

  /**
   * A workflow entering a new state: a running workflow gets a start time
   * and a finished one an end time, each only if it had none; the node
   * states and the current node stay as they were.
   */
  function EnterState(info: WorkflowInfo, newState: WorkflowState, now: int): (r: WorkflowInfo)
    ensures InfoOk(info.workflowId, info) ==> InfoOk(info.workflowId, r)
    ensures r.state == newState && r.workflowId == info.workflowId
    ensures r.nodeStates == info.nodeStates && r.currentNode == info.currentNode
    ensures r.startTime == (if newState == WfRunning && Unset(info.startTime) then Some(now) else info.startTime)
    ensures r.endTime == (if Final(newState) && Unset(info.endTime) then Some(now) else info.endTime)
  {
    var started := if newState == WfRunning && Unset(info.startTime) then Some(now) else info.startTime;
    var ended := if Final(newState) && Unset(info.endTime) then Some(now) else info.endTime;
    info.(state := newState, startTime := started, endTime := ended)
  }

  /**
   * A node entering a new state: a running node becomes the current node,
   * and the current node leaving running leaves no current node; the
   * workflow's own state and times stay as they were.
   */
  function EnterNodeState(info: WorkflowInfo, nodeId: string, newState: NodeState): (r: WorkflowInfo)
    ensures InfoOk(info.workflowId, info) ==> InfoOk(info.workflowId, r)
    ensures r.nodeStates == info.nodeStates[nodeId := newState]
    ensures r.currentNode == (if newState == Running then Some(nodeId)
                              else if info.currentNode == Some(nodeId) then None else info.currentNode)
    ensures r.workflowId == info.workflowId && r.state == info.state
    ensures r.startTime == info.startTime && r.endTime == info.endTime
  {
    var current := if newState == Running then Some(nodeId)
                   else if info.currentNode == Some(nodeId) then None else info.currentNode;
    info.(nodeStates := info.nodeStates[nodeId := newState], currentNode := current)
  }

  /** The longest history a maximum of `max` allows: one push and at most one shift. */
  function Cap(max: int): nat
  {
    if max < 0 then 0 else max
  }

  /** `recordStateChange`: push, then drop the oldest when over the maximum. */
  function Push(h: seq<StateChangeRecord>, rec: StateChangeRecord, max: int): (r: seq<StateChangeRecord>)
    ensures |h| <= Cap(max) ==> |r| <= Cap(max)
    ensures |r| <= |h| + 1 && r == (h + [rec])[|h| + 1 - |r|..]
    ensures 0 < max && |h| <= max ==> |r| > 0 && r[|r| - 1] == rec
    ensures |h| < max ==> r == h + [rec]
  {
    var pushed := h + [rec];
    if |pushed| > max then pushed[1..] else pushed
  }

  /** The node states of `initializeWorkflow`: each listed node pending. */
  function AllPending(nodeIds: seq<string>): (m: map<string, NodeState>)
    ensures m.Keys == set i | 0 <= i < |nodeIds| :: nodeIds[i]
    ensures forall k :: k in m ==> m[k] == Pending
  {
    map k | k in nodeIds :: Pending
  }

  /** The nodes among `keys` in state `s`. */
  function Having(m: map<string, NodeState>, keys: set<string>, s: NodeState): set<string>
  {
    set k | k in keys && k in m && m[k] == s
  }

  /** How many nodes are in each state. */
  datatype Counts = Counts(pending: nat, running: nat, completed: nat, failed: nat, skipped: nat)

  function Total(c: Counts): nat
  {
    c.pending + c.running + c.completed + c.failed + c.skipped
  }

  /** One more node in state `s`. */
  function Bump(c: Counts, s: NodeState): (r: Counts)
    ensures Total(r) == Total(c) + 1
  {
    match s
    case Pending => c.(pending := c.pending + 1)
    case Running => c.(running := c.running + 1)
    case Completed => c.(completed := c.completed + 1)
    case Failed => c.(failed := c.failed + 1)
    case Skipped => c.(skipped := c.skipped + 1)
  }

  /** The counts of the nodes among `keys`. */
  function Tally(m: map<string, NodeState>, keys: set<string>): Counts
  {
    Counts(|Having(m, keys, Pending)|, |Having(m, keys, Running)|, |Having(m, keys, Completed)|,
           |Having(m, keys, Failed)|, |Having(m, keys, Skipped)|)
  }

  /** Counting one more key adds one to the count of its state and nothing to the others. */
  lemma HavingAdd(m: map<string, NodeState>, done: set<string>, k: string, s: NodeState)
    requires k in m && k !in done
    ensures |Having(m, done + {k}, s)| == |Having(m, done, s)| + (if m[k] == s then 1 else 0)
  {
    if m[k] == s {
      assert Having(m, done + {k}, s) == Having(m, done, s) + {k};
    } else {
      assert Having(m, done + {k}, s) == Having(m, done, s);
    }
  }

  lemma TallyAdd(m: map<string, NodeState>, done: set<string>, k: string)
    requires k in m && k !in done
    ensures Tally(m, done + {k}) == Bump(Tally(m, done), m[k])
  {
    HavingAdd(m, done, k, Pending);
    HavingAdd(m, done, k, Running);
    HavingAdd(m, done, k, Completed);
    HavingAdd(m, done, k, Failed);
    HavingAdd(m, done, k, Skipped);
  }

  datatype Statistics = Statistics(
    totalNodes: nat, pendingNodes: nat, runningNodes: nat, completedNodes: nat,
    failedNodes: nat, skippedNodes: nat, progress: nat)

  /**
   * `Math.round(finished / total * 100)`, with the ratio rounded half up in
   * exact arithmetic rather than in double precision.
   */
  function Percent(finished: nat, total: nat): (r: nat)
    requires 0 < total
    ensures 2 * total * r <= 200 * finished + total < 2 * total * (r + 1)
  {
    (200 * finished + total) / (2 * total)
  }

  /** Finished nodes never exceed the total, so progress is at most 100. */
  lemma PercentAtMost100(finished: nat, total: nat)
    requires 0 < total && finished <= total
    ensures Percent(finished, total) <= 100
  {
    var r := Percent(finished, total);
    assert 2 * total * r <= 200 * finished + total < 2 * total * 101;
    if r > 100 {
      MulAtLeast(2 * total, r, 101);
      assert false;
    }
  }

  /** Helper for PercentAtMost100: multiplication by a natural number is monotone. */
  lemma MulAtLeast(a: nat, b: nat, c: nat)
    requires b >= c
    ensures a * b >= a * c
  {
    assert a * b == a * c + a * (b - c);
  }

  /** Listener callbacks, known only by identity. */
  type Listener = nat

  /** `listeners.indexOf(x)` for a listener that is present. */
  function IndexOf(s: seq<Listener>, x: Listener): (i: nat)
    requires x in s
    ensures i < |s| && s[i] == x && x !in s[..i]
  {
    if s[0] == x then 0
    else
      var i := IndexOf(s[1..], x);
      assert s[..i + 1] == [s[0]] + s[1..][..i];
      i + 1
  }

  /** `listeners.splice(listeners.indexOf(callback), 1)` when present. */
  function RemoveFirst(s: seq<Listener>, x: Listener): (r: seq<Listener>)
    ensures x !in s ==> r == s
    ensures x in s ==> |r| == |s| - 1 && multiset(r) == multiset(s) - multiset{x}
    ensures x in s ==> exists i :: 0 <= i < |s| && s[i] == x && x !in s[..i] && r == s[..i] + s[i + 1..]
  {
    if x in s then
      var i := IndexOf(s, x);
      assert s == s[..i] + [x] + s[i + 1..];
      s[..i] + s[i + 1..]
    else s
  }

  /** `history.filter(...)` by target id (when non-empty) and by target type (when given). */
  function FilterHistory(h: seq<StateChangeRecord>, targetId: string, targetType: Option<TargetType>): (r: seq<StateChangeRecord>)
    ensures forall x :: x in r <==> x in h && (targetId == "" || x.targetId == targetId)
                                         && (targetType.None? || x.targetType == targetType.value)
    ensures |r| <= |h|
  {
    if h == [] then []
    else
      var rest := FilterHistory(h[1..], targetId, targetType);
      assert h == [h[0]] + h[1..];
      if (targetId == "" || h[0].targetId == targetId) && (targetType.None? || h[0].targetType == targetType.value)
      then [h[0]] + rest
      else rest
  }

  /** Filtering keeps the order of the history: the result is a subsequence. */
  lemma {:induction false} FilterKeepsOrder(h: seq<StateChangeRecord>, targetId: string, targetType: Option<TargetType>)
    ensures IsSubsequence(FilterHistory(h, targetId, targetType), h)
  {
    if h != [] {
      FilterKeepsOrder(h[1..], targetId, targetType);
    }
  }

  /** `workflowStates.forEach(...)` keeping the running ones: their ids in insertion order. */
  function RunningIn(order: seq<string>, states: map<string, WorkflowInfo>): (r: seq<string>)
    requires forall id :: id in order ==> id in states
    ensures forall id :: id in r <==> id in order && states[id].state == WfRunning
    ensures Distinct(order) ==> Distinct(r)
  {
    if order == [] then []
    else
      var rest := RunningIn(order[1..], states);
      assert Distinct(order) ==> Distinct(order[1..]) && order[0] !in order[1..] by {
        if Distinct(order) {
          forall i, j | 0 <= i < j < |order[1..]| ensures order[1..][i] != order[1..][j] {
            assert order[1..][i] == order[i + 1] && order[1..][j] == order[j + 1];
          }
          forall i | 0 <= i < |order[1..]| ensures order[1..][i] != order[0] { assert order[1..][i] == order[i + 1]; }
        }
      }
      if states[order[0]].state == WfRunning then
        assert forall i :: 1 <= i < |[order[0]] + rest| ==> ([order[0]] + rest)[i] == rest[i - 1];
        [order[0]] + rest
      else rest
  }

  /** The `forEach` loop of `getRunningWorkflows` over the Map's entries, in insertion order. */
  method CollectRunning(order: seq<string>, states: map<string, WorkflowInfo>) returns (running: seq<string>)
    requires forall id :: id in order ==> id in states
    ensures running == RunningIn(order, states)
  {
    running := [];
    for i := 0 to |order|
      invariant forall id :: id in order[i..] ==> id in states
      invariant RunningIn(order, states) == running + RunningIn(order[i..], states)
    {
      SuffixKnown(order, states, i + 1);
      RunningStep(order, states, i);
      if states[order[i]].state == WfRunning {
        AppendAssoc(running, [order[i]], RunningIn(order[i + 1..], states));
        running := running + [order[i]];
      }
    }
  }

  /** Every workflow from position `i` on has a state. */
  lemma SuffixKnown(order: seq<string>, states: map<string, WorkflowInfo>, i: nat)
    requires forall id :: id in order ==> id in states
    requires i <= |order|
    ensures forall id :: id in order[i..] ==> id in states
  {
    forall id | id in order[i..] ensures id in states {
      var j :| 0 <= j < |order[i..]| && order[i..][j] == id;
      assert order[i + j] == id;
    }
  }

  lemma RunningStep(order: seq<string>, states: map<string, WorkflowInfo>, i: nat)
    requires forall id :: id in order ==> id in states
    requires i < |order|
    ensures RunningIn(order[i..], states)
      == (if states[order[i]].state == WfRunning then [order[i]] else []) + RunningIn(order[i + 1..], states)
  {
    assert order[i..][0] == order[i] && order[i..][1..] == order[i + 1..];
  }

  /** The running workflows are listed in the order the workflows were first initialised. */
  lemma {:induction false} RunningKeepsOrder(order: seq<string>, states: map<string, WorkflowInfo>)
    requires forall id :: id in order ==> id in states
    ensures IsSubsequence(RunningIn(order, states), order)
  {
    if order != [] {
      RunningKeepsOrder(order[1..], states);
    }
  }

  /** Every node among `keys` is counted under exactly one state. */
  lemma {:induction false} TallyCovers(m: map<string, NodeState>, keys: set<string>)
    requires keys <= m.Keys
    ensures Total(Tally(m, keys)) == |keys|
    decreases keys
  {
    if keys != {} {
      var k :| k in keys;
      var rest := keys - {k};
      assert keys == rest + {k} && |keys| == |rest| + 1;
      calc {
        Total(Tally(m, keys));
        { TallyAdd(m, rest, k); }
        Total(Bump(Tally(m, rest), m[k]));
        Total(Tally(m, rest)) + 1;
        { TallyCovers(m, rest); }
        |rest| + 1;
      }
    }
  }

  /** One step of the count: `k` moves from the keys left to the keys done. */
  lemma CountStep(m: map<string, NodeState>, done: set<string>, left: set<string>, k: string)
    requires left !! done && left + done == m.Keys && k in left
    ensures (left - {k}) !! (done + {k}) && (left - {k}) + (done + {k}) == m.Keys
    ensures Tally(m, done + {k}) == Bump(Tally(m, done), m[k])
  {
    MoveKey(done, left, k);
    assert k in m && k !in done;
    TallyAdd(m, done, k);
  }


  /** The `forEach` over a workflow's node states, counting each state; the counts add up to the node count. */
  method CountStates(m: map<string, NodeState>) returns (counts: Counts)
    ensures counts == Tally(m, m.Keys) && Total(counts) == |m|
  {
    counts := Counts(0, 0, 0, 0, 0);
    ghost var done: set<string> := {};
    var left := m.Keys;
    while left != {}
      invariant left !! done && left + done == m.Keys
      invariant counts == Tally(m, done)
      decreases left
    {
      var k :| k in left;
      CountStep(m, done, left, k);
      counts := Bump(counts, m[k]);
      done := done + {k};
      left := left - {k};
    }
    assert done == m.Keys;
    assert Total(counts) == |m| by {
      TallyCovers(m, m.Keys);
      assert |m.Keys| == |m|;
    }
  }

  /**
   * Statistics describe a node map when they count its nodes by state, the
   * counts add up to the node count, and progress is the rounded percentage
   * of completed or skipped nodes, at most 100.
   */
  predicate DescribesNodes(m: map<string, NodeState>, st: Statistics)
  {
    && st.totalNodes == |m|
    && st.pendingNodes == |Having(m, m.Keys, Pending)|
    && st.runningNodes == |Having(m, m.Keys, Running)|
    && st.completedNodes == |Having(m, m.Keys, Completed)|
    && st.failedNodes == |Having(m, m.Keys, Failed)|
    && st.skippedNodes == |Having(m, m.Keys, Skipped)|
    && st.pendingNodes + st.runningNodes + st.completedNodes + st.failedNodes + st.skippedNodes == st.totalNodes
    && st.progress == (if |m| > 0 then Percent(st.completedNodes + st.skippedNodes, |m|) else 0)
    && st.progress <= 100
  }

  /** The statistics of one workflow's nodes, as `getWorkflowStatistics` computes them. */
  method NodeStatistics(m: map<string, NodeState>) returns (st: Statistics)
    ensures DescribesNodes(m, st)
  {
    var c := CountStates(m);
    var progress := 0;
    if |m| > 0 {
      progress := Percent(c.completed + c.skipped, |m|);
      PercentAtMost100(c.completed + c.skipped, |m|);
    }
    st := Statistics(|m|, c.pending, c.running, c.completed, c.failed, c.skipped, progress);
  }

  class StateManager {
    const recordHistory: bool
    const maxHistorySize: int
    var workflowStates: map<string, WorkflowInfo>
    var workflowOrder: seq<string>  // the insertion order of the Map's keys
    var changeHistory: seq<StateChangeRecord>
    var listeners: map<string, seq<Listener>>

    ghost predicate Valid()
      reads this
    {
      && |changeHistory| <= Cap(maxHistorySize)
      && (forall id :: id in workflowStates ==> InfoOk(id, workflowStates[id]))
      && Distinct(workflowOrder) && (forall id :: id in workflowOrder <==> id in workflowStates)
    }

    /** `new StateManager(config)`: history on and 1000 entries unless configured. */
    constructor (recordHistory: Option<bool>, maxHistorySize: Option<int>)
      ensures Valid()
      ensures this.recordHistory == (if recordHistory.Some? then recordHistory.value else true)
      ensures this.maxHistorySize == (if maxHistorySize.Some? then maxHistorySize.value else 1000)
      ensures workflowStates == map[] && workflowOrder == [] && changeHistory == [] && listeners == map[]
    {
      this.recordHistory := if recordHistory.Some? then recordHistory.value else true;
      this.maxHistorySize := if maxHistorySize.Some? then maxHistorySize.value else 1000;
      workflowStates := map[];
      workflowOrder := [];
      changeHistory := [];
      listeners := map[];
    }

    /** `initializeWorkflow(workflowId, nodeIds)`: a pending workflow whose listed nodes are all pending. */
    method InitializeWorkflow(workflowId: string, nodeIds: seq<string>)
      requires Valid()
      modifies this
      ensures Valid()
      ensures workflowStates == old(workflowStates)[workflowId := WorkflowInfo(workflowId, WfPending, None, None, AllPending(nodeIds), None)]
      ensures workflowOrder == if workflowId in old(workflowStates) then old(workflowOrder) else old(workflowOrder) + [workflowId]
      ensures changeHistory == old(changeHistory) && listeners == old(listeners)
    {
      var states: map<string, NodeState> := map[];
      for i := 0 to |nodeIds|
        invariant states == AllPending(nodeIds[..i])
      {
        assert nodeIds[..i + 1] == nodeIds[..i] + [nodeIds[i]];
        states := states[nodeIds[i] := Pending];
      }
      assert nodeIds[..|nodeIds|] == nodeIds;
      if workflowId !in workflowStates {
        workflowOrder := workflowOrder + [workflowId];
      }
      workflowStates := workflowStates[workflowId := WorkflowInfo(workflowId, WfPending, None, None, states, None)];
    }

    /** `recordStateChange(record)`. */
    method RecordStateChange(rec: StateChangeRecord)
      requires |changeHistory| <= Cap(maxHistorySize)
      modifies this
      ensures |changeHistory| <= Cap(maxHistorySize)
      ensures changeHistory == Push(old(changeHistory), rec, maxHistorySize)
      ensures workflowStates == old(workflowStates) && workflowOrder == old(workflowOrder) && listeners == old(listeners)
    {
      changeHistory := changeHistory + [rec];
      if |changeHistory| > maxHistorySize {
        changeHistory := changeHistory[1..];
      }
    }

    /**
     * `setWorkflowState(workflowId, newState, reason)`: an unknown workflow
     * throws; the same state changes nothing; otherwise the state changes,
     * the start time is set on the first entry into running, the end time
     * on the first entry into a final state (both from the clock reading
     * `now`; one call sets at most one of them), and one record is kept when
     * the history is on, stamped with a later reading `recordNow`.
     */
    method SetWorkflowState(workflowId: string, newState: WorkflowState, reason: Option<string>, now: int, recordNow: int)
      returns (r: Result<(), string>)
      requires Valid()
      modifies this
      ensures Valid()
      ensures listeners == old(listeners) && workflowOrder == old(workflowOrder)
      ensures workflowId !in old(workflowStates) ==> r == Err("Workflow not found: " + workflowId)
      ensures r.Err? || old(workflowStates)[workflowId].state == newState ==>
        workflowStates == old(workflowStates) && changeHistory == old(changeHistory)
      ensures workflowId in old(workflowStates) ==> r.Ok?
      ensures workflowId in old(workflowStates) && old(workflowStates)[workflowId].state != newState ==>
        var was := old(workflowStates)[workflowId];
        && workflowStates.Keys == old(workflowStates).Keys
        && (forall id :: id in workflowStates && id != workflowId ==> workflowStates[id] == old(workflowStates)[id])
        && workflowStates[workflowId] == EnterState(was, newState, now)
        && changeHistory == (if recordHistory then
             Push(old(changeHistory), StateChangeRecord(workflowId, WorkflowTarget, WorkflowStateName(was.state),
                                                         WorkflowStateName(newState), recordNow, reason), maxHistorySize)
             else old(changeHistory))
    {
      if workflowId !in workflowStates {
        return Err("Workflow not found: " + workflowId);
      }
      r := Ok(());
      var info := workflowStates[workflowId];
      var oldState := info.state;
      if oldState == newState {
        return;
      }
      info := EnterState(info, newState, now);
      workflowStates := workflowStates[workflowId := info];
      if recordHistory {
        RecordStateChange(StateChangeRecord(workflowId, WorkflowTarget, WorkflowStateName(oldState),
                                            WorkflowStateName(newState), recordNow, reason));
      }
    }

    /**
     * `setNodeState(workflowId, nodeId, newState, reason)` at time `now`:
     * an unknown workflow or node throws; the same state changes nothing;
     * otherwise the node's state changes, a running node becomes the
     * current node, a node leaving running stops being current if it was,
     * and one record is kept when the history is on.
     */
    method SetNodeState(workflowId: string, nodeId: string, newState: NodeState, reason: Option<string>, now: int)
      returns (r: Result<(), string>)
      requires Valid()
      modifies this
      ensures Valid()
      ensures listeners == old(listeners) && workflowOrder == old(workflowOrder)
      ensures workflowId !in old(workflowStates) ==> r == Err("Workflow not found: " + workflowId)
      ensures workflowId in old(workflowStates) && nodeId !in old(workflowStates)[workflowId].nodeStates ==>
        r == Err("Node not found: " + nodeId + " in workflow " + workflowId)
      ensures r.Ok? <==> workflowId in old(workflowStates) && nodeId in old(workflowStates)[workflowId].nodeStates
      ensures r.Err? || old(workflowStates)[workflowId].nodeStates[nodeId] == newState ==>
        workflowStates == old(workflowStates) && changeHistory == old(changeHistory)
      ensures r.Ok? && old(workflowStates)[workflowId].nodeStates[nodeId] != newState ==>
        var was := old(workflowStates)[workflowId];
        && workflowStates.Keys == old(workflowStates).Keys
        && (forall id :: id in workflowStates && id != workflowId ==> workflowStates[id] == old(workflowStates)[id])
        && workflowStates[workflowId] == EnterNodeState(was, nodeId, newState)
        && changeHistory == (if recordHistory then
             Push(old(changeHistory), StateChangeRecord(nodeId, NodeTarget, NodeStateName(was.nodeStates[nodeId]),
                                                         NodeStateName(newState), now, reason), maxHistorySize)
             else old(changeHistory))
    {
      if workflowId !in workflowStates {
        return Err("Workflow not found: " + workflowId);
      }
      var info := workflowStates[workflowId];
      if nodeId !in info.nodeStates {
        return Err("Node not found: " + nodeId + " in workflow " + workflowId);
      }
      r := Ok(());
      var oldState := info.nodeStates[nodeId];
      if oldState == newState {
        return;
      }
      info := EnterNodeState(info, nodeId, newState);
      workflowStates := workflowStates[workflowId := info];
      if recordHistory {
        RecordStateChange(StateChangeRecord(nodeId, NodeTarget, NodeStateName(oldState), NodeStateName(newState), now, reason));
      }
    }

    /** `getWorkflowState(workflowId)`. */
    function GetWorkflowState(workflowId: string): (r: Option<WorkflowState>)
      reads this
      ensures r.Some? <==> workflowId in workflowStates
      ensures r.Some? ==> r.value == workflowStates[workflowId].state
    {
      if workflowId in workflowStates then Some(workflowStates[workflowId].state) else None
    }

    /** `getNodeState(workflowId, nodeId)`. */
    function GetNodeState(workflowId: string, nodeId: string): (r: Option<NodeState>)
      reads this
      ensures r.Some? <==> workflowId in workflowStates && nodeId in workflowStates[workflowId].nodeStates
      ensures r.Some? ==> r.value == workflowStates[workflowId].nodeStates[nodeId]
    {
      if workflowId in workflowStates && nodeId in workflowStates[workflowId].nodeStates
      then Some(workflowStates[workflowId].nodeStates[nodeId])
      else None
    }

    /** `getWorkflowStateInfo(workflowId)`: the whole entry, if the workflow is known. */
    function GetWorkflowStateInfo(workflowId: string): (r: Option<WorkflowInfo>)
      reads this
      requires Valid()
      ensures r.Some? <==> workflowId in workflowStates
      ensures r.Some? ==> r.value.workflowId == workflowId && InfoOk(workflowId, r.value)
    {
      if workflowId in workflowStates then Some(workflowStates[workflowId]) else None
    }

    /** `isWorkflowRunning(workflowId)`: an unknown workflow is not running. */
    function IsWorkflowRunning(workflowId: string): (b: bool)
      reads this
      ensures b <==> workflowId in workflowStates && workflowStates[workflowId].state == WfRunning
    {
      GetWorkflowState(workflowId) == Some(WfRunning)
    }

    /** `isNodeRunning(workflowId, nodeId)`: an unknown workflow or node is not running. */
    function IsNodeRunning(workflowId: string, nodeId: string): (b: bool)
      reads this
      ensures b <==> workflowId in workflowStates && nodeId in workflowStates[workflowId].nodeStates
                     && workflowStates[workflowId].nodeStates[nodeId] == Running
    {
      GetNodeState(workflowId, nodeId) == Some(Running)
    }

    /** `getRunningWorkflows()`: every running workflow, once each. */
    method GetRunningWorkflows() returns (running: seq<string>)
      requires Valid()
      ensures running == RunningIn(workflowOrder, workflowStates)
      ensures forall id :: id in running <==> id in workflowStates && workflowStates[id].state == WfRunning
      ensures Distinct(running)
    {
      running := CollectRunning(workflowOrder, workflowStates);
    }

    /** `getStateHistory(targetId, targetType)`. */
    function GetStateHistory(targetId: string, targetType: Option<TargetType>): (r: seq<StateChangeRecord>)
      reads this
      ensures forall x :: x in r <==> x in changeHistory && (targetId == "" || x.targetId == targetId)
                                           && (targetType.None? || x.targetType == targetType.value)
    {
      FilterHistory(changeHistory, targetId, targetType)
    }

    /** `addListener(targetId, callback)`: appended to that target's list. */
    method AddListener(targetId: string, callback: Listener)
      modifies this
      ensures listeners == old(listeners)[targetId := (if targetId in old(listeners) then old(listeners)[targetId] else []) + [callback]]
      ensures workflowStates == old(workflowStates) && changeHistory == old(changeHistory)
    {
      var current := if targetId in listeners then listeners[targetId] else [];
      listeners := listeners[targetId := current + [callback]];
    }

    /** `removeListener(targetId, callback)`: its first registration removed, if any. */
    method RemoveListener(targetId: string, callback: Listener)
      modifies this
      ensures targetId !in old(listeners) ==> listeners == old(listeners)
      ensures targetId in old(listeners) ==> listeners == old(listeners)[targetId := RemoveFirst(old(listeners)[targetId], callback)]
      ensures workflowStates == old(workflowStates) && changeHistory == old(changeHistory)
    {
      if targetId in listeners {
        listeners := listeners[targetId := RemoveFirst(listeners[targetId], callback)];
      }
    }

    /**
     * `getWorkflowStatistics(workflowId)`: the number of nodes in each
     * state, which add up to the node count, and the rounded percentage of
     * completed or skipped nodes.
     */
    method GetWorkflowStatistics(workflowId: string) returns (r: Option<Statistics>)
      ensures r.None? <==> workflowId !in workflowStates
      ensures r.Some? ==> DescribesNodes(workflowStates[workflowId].nodeStates, r.value)
    {
      if workflowId !in workflowStates {
        return None;
      }
      var st := NodeStatistics(workflowStates[workflowId].nodeStates);
      r := Some(st);
    }

    /** `cleanupWorkflow(workflowId)`: that workflow's entry and its listeners removed. */
    method CleanupWorkflow(workflowId: string)
      requires Valid()
      modifies this
      ensures Valid()
      ensures workflowStates == old(workflowStates) - {workflowId} && listeners == old(listeners) - {workflowId}
      ensures workflowOrder == Without(old(workflowOrder), workflowId)
      ensures changeHistory == old(changeHistory)
    {
      workflowOrder := Without(workflowOrder, workflowId);
      workflowStates := workflowStates - {workflowId};
      listeners := listeners - {workflowId};
    }

    /** `reset()`: no workflows, no history, no listeners. */
    method Reset()
      modifies this
      ensures Valid()
      ensures |workflowStates| == 0 && workflowOrder == [] && changeHistory == [] && |listeners| == 0
    {
      workflowStates := map[];
      workflowOrder := [];
      changeHistory := [];
      listeners := map[];
    }
  }
}
