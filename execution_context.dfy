/**
 * The per-run execution context of the pipeline
 * (functions/api/pipeline-v3/ExecutionContext.ts): shared data with a size
 * limit, the execution trace, and the run summary. The JSON serialisation
 * lengths used as sizes are the abstract measures `valueSize` and
 * `dataSize`; clock readings are parameters.
 */
module Execution {
  import opened Common
  import opened Node

  datatype RecordStatus = Started | Completed | Failed | Skipped

  /** `ExecutionRecord`; `error` carries the error of a failure or the reason of a skip. */
  datatype ExecutionRecord = ExecutionRecord(
    nodeId: string, status: RecordStatus, timestamp: int,
    result: Option<NodeResult>, error: Option<Value>, input: Option<Payload>)

  datatype SummaryStatus = Success | Error | Partial

  datatype ExecutionSummary = ExecutionSummary(
    executionId: string, workflowId: string, startTime: int, endTime: int, duration: int,
    nodesExecuted: nat, nodesSucceeded: nat, nodesFailed: nat, nodesSkipped: nat,
    trace: seq<ExecutionRecord>, status: SummaryStatus)

  /** The serialisation lengths: of one value, and of the whole data map. */
  datatype Measure = Measure(valueSize: Value -> nat, dataSize: map<string, Value> -> nat)

  const DefaultMaxDataSize := 10 * 1024 * 1024

  /** The records of one node, in trace order. */
  function NodeRecords(trace: seq<ExecutionRecord>, nodeId: string): (r: seq<ExecutionRecord>)
    ensures |r| <= |trace|
    ensures forall x :: x in r <==> x in trace && x.nodeId == nodeId
  {
    if trace == [] then []
    else
      var rest := NodeRecords(trace[..|trace| - 1], nodeId);
      var last := trace[|trace| - 1];
      assert trace == trace[..|trace| - 1] + [last];
      if last.nodeId == nodeId then rest + [last] else rest
  }

  /** The node's record at `i` is its latest one. */
  predicate LatestAt(trace: seq<ExecutionRecord>, nodeId: string, i: int)
  {
    0 <= i < |trace| && trace[i].nodeId == nodeId
    && forall j :: i < j < |trace| ==> trace[j].nodeId != nodeId
  }

  /** The position of the node's latest record, or -1. */
  function LastIndex(trace: seq<ExecutionRecord>, nodeId: string): (r: int)
    ensures -1 <= r < |trace|
    ensures r >= 0 ==> LatestAt(trace, nodeId, r)
    ensures r < 0 ==> forall j :: 0 <= j < |trace| ==> trace[j].nodeId != nodeId
  {
    if trace == [] then -1
    else if trace[|trace| - 1].nodeId == nodeId then |trace| - 1
    else LastIndex(trace[..|trace| - 1], nodeId)
  }

  /** The last of a node's records is the record at its latest position. */
  lemma {:induction false} LastOfRecords(trace: seq<ExecutionRecord>, nodeId: string)
    ensures NodeRecords(trace, nodeId) != [] <==> LastIndex(trace, nodeId) >= 0
    ensures var rs := NodeRecords(trace, nodeId);
      rs != [] ==> rs[|rs| - 1] == trace[LastIndex(trace, nodeId)]
  {
    if trace != [] && trace[|trace| - 1].nodeId != nodeId {
      LastOfRecords(trace[..|trace| - 1], nodeId);
    }
  }

  /** The last non-`started` status of every node that has one. */
  function LastStatuses(trace: seq<ExecutionRecord>): (m: map<string, RecordStatus>)
    ensures forall k :: k in m ==> m[k] != Started
    ensures forall k :: k in m <==> exists i :: 0 <= i < |trace| && trace[i].nodeId == k && trace[i].status != Started
  {
    if trace == [] then map[]
    else
      var init := trace[..|trace| - 1];
      var m := LastStatuses(init);
      var last := trace[|trace| - 1];
      assert forall i :: 0 <= i < |init| ==> trace[i] == init[i];
      if last.status != Started then m[last.nodeId := last.status] else m
  }

  /** The nodes whose last status is `s`. */
  function CountStatus(m: map<string, RecordStatus>, s: RecordStatus): nat
  {
    CountIn(m, m.Keys, s)
  }

  /** `partial` with errors and completions, `error` with errors only, else `success`. */
  function StatusOf(completed: nat, errors: nat): (s: SummaryStatus)
    ensures s == Success <==> errors == 0
    ensures s == Partial <==> errors > 0 && completed > 0
  {
    if errors > 0 then (if completed > 0 then Partial else Error) else Success
  }

  class ExecutionContext {
    const executionId: string
    const workflowId: string
    const startTime: int
    const verbose: bool
    const maxDataSize: int
    const measure: Measure
    var data: map<string, Value>
    var trace: seq<ExecutionRecord>

    /** `new ExecutionContext(executionId, workflow, options)` at time `now`; a falsy `maxDataSize` keeps 10 MiB. */
    constructor (executionId: string, workflowId: string, now: int, verbose: Value, maxDataSize: Value, measure: Measure)
      ensures this.executionId == executionId && this.workflowId == workflowId && startTime == now
      ensures this.verbose == Truthy(verbose)
      ensures this.maxDataSize == if maxDataSize.Num? && maxDataSize.n != 0 then maxDataSize.n else DefaultMaxDataSize
      ensures this.measure == measure
      ensures data == map[] && trace == []
    {
      this.executionId := executionId;
      this.workflowId := workflowId;
      startTime := now;
      this.verbose := Truthy(verbose);
      this.maxDataSize := if maxDataSize.Num? && maxDataSize.n != 0 then maxDataSize.n else DefaultMaxDataSize;
      this.measure := measure;
      data := map[];
      trace := [];
    }

    /** `setData(key, value)`: refused, with nothing changed, when the data would outgrow the limit. */
    method SetData(key: string, value: Value) returns (r: Result<(), string>)
      modifies this
      ensures trace == old(trace)
      ensures var total := measure.dataSize(old(data)) + measure.valueSize(value);
        if total > maxDataSize then
          r == Err("Data size limit exceeded: " + IntToString(total) + " > " + IntToString(maxDataSize)) && data == old(data)
        else r == Ok(()) && data == old(data)[key := value]
    {
      var dataSize := measure.valueSize(value);
      var currentSize := measure.dataSize(data);
      if currentSize + dataSize > maxDataSize {
        return Err("Data size limit exceeded: " + IntToString(currentSize + dataSize) + " > " + IntToString(maxDataSize));
      }
      data := data[key := value];
      r := Ok(());
    }

    /** `getData(key, defaultValue)`: the default for an absent key or an undefined value. */
    function GetData(key: string, default: Value): (r: Value)
      reads this
      ensures key in data && !data[key].Undefined? ==> r == data[key]
      ensures key !in data || data[key].Undefined? ==> r == default
    {
      if key in data && !data[key].Undefined? then data[key] else default
    }

    function HasData(key: string): bool
      reads this
    {
      key in data
    }

    /** `deleteData(key)`: whether the key was there; it is gone afterwards. */
    method DeleteData(key: string) returns (deleted: bool)
      modifies this
      ensures deleted == (key in old(data))
      ensures data == old(data) - {key} && trace == old(trace)
    {
      deleted := key in data;
      data := data - {key};
    }

    method ClearData()
      modifies this
      ensures data == map[] && trace == old(trace)
    {
      data := map[];
    }

    /** `recordNodeStart(nodeId, input)`: the input is kept only in verbose mode. */
    method RecordNodeStart(nodeId: string, input: Payload, now: int)
      modifies this
      ensures trace == old(trace) + [ExecutionRecord(nodeId, Started, now, None, None, if verbose then Some(input) else None)]
      ensures data == old(data)
    {
      trace := trace + [ExecutionRecord(nodeId, Started, now, None, None, if verbose then Some(input) else None)];
    }

    method RecordNodeComplete(nodeId: string, result: NodeResult, now: int)
      modifies this
      ensures trace == old(trace) + [ExecutionRecord(nodeId, Completed, now, Some(result), None, None)]
      ensures data == old(data)
    {
      trace := trace + [ExecutionRecord(nodeId, Completed, now, Some(result), None, None)];
    }

    method RecordNodeError(nodeId: string, error: Value, now: int)
      modifies this
      ensures trace == old(trace) + [ExecutionRecord(nodeId, Failed, now, None, Some(error), None)]
      ensures data == old(data)
    {
      trace := trace + [ExecutionRecord(nodeId, Failed, now, None, Some(error), None)];
    }

    method RecordNodeSkipped(nodeId: string, reason: Option<string>, now: int)
      modifies this
      ensures trace == old(trace) + [ExecutionRecord(nodeId, Skipped, now, None, if reason.Some? then Some(Str(reason.value)) else None, None)]
      ensures data == old(data)
    {
      trace := trace + [ExecutionRecord(nodeId, Skipped, now, None, if reason.Some? then Some(Str(reason.value)) else None, None)];
    }

    /** `getNodeRecords(nodeId)`. */
    function GetNodeRecords(nodeId: string): (r: seq<ExecutionRecord>)
      reads this
      ensures forall x :: x in r <==> x in trace && x.nodeId == nodeId
    {
      NodeRecords(trace, nodeId)
    }

    /** `getLastNodeRecord(nodeId)`: the node's latest record, if any. */
    function GetLastNodeRecord(nodeId: string): (r: Option<ExecutionRecord>)
      reads this
      ensures r.None? <==> forall j :: 0 <= j < |trace| ==> trace[j].nodeId != nodeId
      ensures r.Some? ==> LatestAt(trace, nodeId, LastIndex(trace, nodeId)) && r.value == trace[LastIndex(trace, nodeId)]
    {
      var rs := NodeRecords(trace, nodeId);
      LastOfRecords(trace, nodeId);
      if rs == [] then None
      else Some(rs[|rs| - 1])
    }

    /**
     * `getSummary()` at time `now`: counts each node once, by its last
     * status other than `started`.
     */
    method GetSummary(now: int) returns (s: ExecutionSummary)
      ensures var m := LastStatuses(trace);
        s.nodesExecuted == |m| && s.nodesSucceeded == CountStatus(m, Completed)
        && s.nodesFailed == CountStatus(m, Failed) && s.nodesSkipped == CountStatus(m, Skipped)
      ensures s.nodesSucceeded + s.nodesFailed + s.nodesSkipped == s.nodesExecuted
      ensures s.status == StatusOf(s.nodesSucceeded, s.nodesFailed)
      ensures s.trace == trace && s.executionId == executionId && s.workflowId == workflowId
      ensures s.startTime == startTime && s.endTime == now && s.duration == now - startTime
    {
      var statuses := CollectStatuses(trace);
      var completed, errors, skipped := CountStatuses(statuses);
      s := ExecutionSummary(executionId, workflowId, startTime, now, now - startTime,
        |statuses|, completed, errors, skipped, trace, StatusOf(completed, errors));
    }
  }

  /** The first loop of `getSummary`: the map of last statuses. */
  method CollectStatuses(trace: seq<ExecutionRecord>) returns (m: map<string, RecordStatus>)
    ensures m == LastStatuses(trace)
  {
    m := map[];
    var i := 0;
    while i < |trace|
      invariant 0 <= i <= |trace|
      invariant m == LastStatuses(trace[..i])
    {
      assert trace[..i + 1][..i] == trace[..i];
      if trace[i].status != Started {
        m := m[trace[i].nodeId := trace[i].status];
      }
      i := i + 1;
    }
    assert trace[..i] == trace;
  }

  /** The nodes among `keys` whose last status is `s`. */
  function CountIn(m: map<string, RecordStatus>, keys: set<string>, s: RecordStatus): nat
  {
    |set k | k in keys && k in m && m[k] == s|
  }

  lemma CountInAdd(m: map<string, RecordStatus>, keys: set<string>, k: string, s: RecordStatus)
    requires k !in keys && k in m
    ensures CountIn(m, keys + {k}, s) == CountIn(m, keys, s) + (if m[k] == s then 1 else 0)
  {
    var before := set x | x in keys && x in m && m[x] == s;
    var after := set x | x in keys + {k} && x in m && m[x] == s;
    if m[k] == s {
      assert after == before + {k};
    } else {
      assert after == before;
    }
  }

  /** Every node with a final status is counted under exactly one of the three. */
  lemma {:induction false} CountsCover(m: map<string, RecordStatus>, keys: set<string>)
    requires keys <= m.Keys
    requires forall k :: k in m ==> m[k] != Started
    ensures CountIn(m, keys, Completed) + CountIn(m, keys, Failed) + CountIn(m, keys, Skipped) == |keys|
    decreases keys
  {
    if keys != {} {
      var k :| k in keys;
      var rest := keys - {k};
      assert keys == rest + {k} && |keys| == |rest| + 1;
      CountsCover(m, rest);
      CountInAdd(m, rest, k, Completed);
      CountInAdd(m, rest, k, Failed);
      CountInAdd(m, rest, k, Skipped);
    }
  }

  /** The second loop of `getSummary`: one count per status, over the map's values. */
  method CountStatuses(m: map<string, RecordStatus>) returns (completed: nat, errors: nat, skipped: nat)
    requires forall k :: k in m ==> m[k] != Started
    ensures completed == CountStatus(m, Completed) && errors == CountStatus(m, Failed) && skipped == CountStatus(m, Skipped)
    ensures completed + errors + skipped == |m|
  {
    completed, errors, skipped := 0, 0, 0;
    var keys := m.Keys;
    ghost var done: set<string> := {};
    while keys != {}
      invariant keys !! done && keys + done == m.Keys
      invariant completed == CountIn(m, done, Completed)
      invariant errors == CountIn(m, done, Failed)
      invariant skipped == CountIn(m, done, Skipped)
      decreases keys
    {
      var k :| k in keys;
      CountStep(m, done, keys, k);
      var status := m[k];
      completed := completed + if status == Completed then 1 else 0;
      errors := errors + if status == Failed then 1 else 0;
      skipped := skipped + if status == Skipped then 1 else 0;
      keys := keys - {k};
      done := done + {k};
    }
    assert done == m.Keys;
    StatusCountsCover(m);
  }

  /** With no node left at `started`, the three counts add up to the number of nodes. */
  lemma StatusCountsCover(m: map<string, RecordStatus>)
    requires forall k :: k in m ==> m[k] != Started
    ensures CountStatus(m, Completed) + CountStatus(m, Failed) + CountStatus(m, Skipped) == |m|
  {
    CountsCover(m, m.Keys);
    assert |m.Keys| == |m|;
  }

  /** One step of the count: `k` moves from the keys left to the keys done. */
  lemma CountStep(m: map<string, RecordStatus>, done: set<string>, left: set<string>, k: string)
    requires left !! done && left + done == m.Keys && k in left
    ensures (left - {k}) !! (done + {k}) && (left - {k}) + (done + {k}) == m.Keys
    ensures CountIn(m, done + {k}, Completed) == CountIn(m, done, Completed) + (if m[k] == Completed then 1 else 0)
    ensures CountIn(m, done + {k}, Failed) == CountIn(m, done, Failed) + (if m[k] == Failed then 1 else 0)
    ensures CountIn(m, done + {k}, Skipped) == CountIn(m, done, Skipped) + (if m[k] == Skipped then 1 else 0)
  {
    MoveKey(done, left, k);
    assert k in m && k !in done;
    CountInAdd(m, done, k, Completed);
    CountInAdd(m, done, k, Failed);
    CountInAdd(m, done, k, Skipped);
  }
}
