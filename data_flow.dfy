/**
 * The v3 pipeline's data-flow manager
 * (functions/api/pipeline-v3/DataFlowManager.ts): passing data between
 * nodes through a size check, a clone and the registered transformers,
 * keeping a bounded log of flows, and summarising that log. The JSON size
 * and the JSON clone are abstract functions fixed at construction; the
 * clock is a parameter.
 */
module DataFlow {
  import opened Common

  /** The most flow records kept. */
  const MaxRecords := 1000

  /** `10 * 1024 * 1024`, the default `maxDataSize`. */
  const DefaultMaxDataSize := 10485760

  /**
   * A registered transformer. `validate` is absent or yields `Some(b)`
   * for a call that returned `b`, `None` for a call that threw; `transform`
   * yields `None` for a call that threw.
   */
  datatype Transformer = Transformer(name: string, transform: Value -> Option<Value>, validate: Option<Value -> Option<bool>>)

  datatype FlowRecord = FlowRecord(
    fromNode: string, fromOutput: string, toNode: string, toInput: string,
    data: Value, timestamp: int, dataSize: nat)

  /** One flow of `passBatch`. */
  datatype Flow = Flow(fromNode: string, fromOutput: string, toNode: string, toInput: string, data: Value)

  /** One entry of `passBatch`'s result: `{ success: true, data }` or `{ success: false, error }`. */
  datatype BatchEntry = Passed(data: Value) | Rejected(error: string)

  /**
   * One pass of the transformer loop: the transformer applies only when it
   * has `validate` and that returns true; a throw from either call leaves
   * the data as it was.
   */
  function Step(t: Transformer, v: Value): (r: Value)
    ensures r != v ==> t.validate.Some? && t.validate.value(v) == Some(true) && t.transform(v) == Some(r)
    ensures t.validate.Some? && t.validate.value(v) == Some(true) && t.transform(v).Some? ==> r == t.transform(v).value
  {
    if t.validate.Some? && t.validate.value(v) == Some(true) then
      match t.transform(v)
      case Some(w) => w
      case None => v
    else v
  }

  /** `applyTransformers`: every transformer in registration order, each on the previous one's output. */
  function Apply(ts: seq<Transformer>, v: Value): Value
  {
    if ts == [] then v else Step(ts[|ts| - 1], Apply(ts[..|ts| - 1], v))
  }

  /** Transformers without `validate` never change the data, whatever their `transform` does. */
  lemma {:induction false} NoValidateNoChange(ts: seq<Transformer>, v: Value)
    requires forall i :: 0 <= i < |ts| ==> ts[i].validate.None?
    ensures Apply(ts, v) == v
  {
    if ts != [] {
      NoValidateNoChange(ts[..|ts| - 1], v);
    }
  }

  /** Transformers whose calls all throw leave the data as it was. */
  lemma {:induction false} ThrowingTransformersSkipped(ts: seq<Transformer>, v: Value)
    requires forall i, w :: 0 <= i < |ts| ==> ts[i].transform(w).None?
    ensures Apply(ts, v) == v
  {
    if ts != [] {
      ThrowingTransformersSkipped(ts[..|ts| - 1], v);
    }
  }

  /** Where the transformer called `name` sits, or `|ts|` when there is none. */
  function NameIndex(ts: seq<Transformer>, name: string): (k: nat)
    ensures k <= |ts|
    ensures k < |ts| ==> ts[k].name == name
    ensures forall i :: 0 <= i < k ==> ts[i].name != name
  {
    if ts == [] then 0
    else if ts[0].name == name then 0
    else 1 + NameIndex(ts[1..], name)
  }

  /** `transformers.set(name, t)`: a known name keeps its place and takes the new transformer, a new one goes last. */
  function Register(ts: seq<Transformer>, t: Transformer): (r: seq<Transformer>)
    ensures t in r
    ensures (exists i :: 0 <= i < |ts| && ts[i].name == t.name) ==> |r| == |ts|
    ensures (forall i :: 0 <= i < |ts| ==> ts[i].name != t.name) ==> r == ts + [t]
    ensures forall i :: 0 <= i < |ts| && ts[i].name != t.name ==> i < |r| && r[i] == ts[i]
    ensures forall x :: x in r ==> x == t || x in ts
  {
    var k := NameIndex(ts, t.name);
    if k < |ts| then
      var r := ts[k := t];
      assert r[k] == t;
      r
    else ts + [t]
  }

  /** No two transformers share a name. */
  predicate NamesDistinct(ts: seq<Transformer>)
  {
    forall i, j :: 0 <= i < j < |ts| ==> ts[i].name != ts[j].name
  }

  /** Registering keeps the names distinct, as the map keyed by name does. */
  lemma {:induction false} RegisterKeepsNamesDistinct(ts: seq<Transformer>, t: Transformer)
    requires NamesDistinct(ts)
    ensures NamesDistinct(Register(ts, t))
  {
    var k := NameIndex(ts, t.name);
    var r := Register(ts, t);
    if k < |ts| {
      assert forall i :: 0 <= i < |r| ==> r[i].name == ts[i].name;
    } else {
      assert forall i :: 0 <= i < |ts| ==> r[i] == ts[i];
    }
  }

  /** How many batch entries passed. */
  function PassedCount(es: seq<BatchEntry>): (n: nat)
    ensures n <= |es|
  {
    if es == [] then 0
    else PassedCount(es[..|es| - 1]) + (if es[|es| - 1].Passed? then 1 else 0)
  }

  /** `recordDataFlow`: push, then drop the oldest beyond 1000. */
  function Push(h: seq<FlowRecord>, rec: FlowRecord): (r: seq<FlowRecord>)
    ensures |h| <= MaxRecords ==> |r| <= MaxRecords
    ensures 0 < |r| <= |h| + 1 && r[|r| - 1] == rec
    ensures r == (h + [rec])[|h| + 1 - |r|..]
    ensures |h| < MaxRecords ==> r == h + [rec]
  {
    var pushed := h + [rec];
    if |pushed| > MaxRecords then pushed[1..] else pushed
  }

  /** `records.reduce((sum, r) => sum + r.dataSize, 0)`. */
  function TotalSize(rs: seq<FlowRecord>): nat
  {
    if rs == [] then 0 else TotalSize(rs[..|rs| - 1]) + rs[|rs| - 1].dataSize
  }

  /** The total size splits over concatenation, so each record counts once. */
  lemma {:induction false} TotalSizeAppend(a: seq<FlowRecord>, b: seq<FlowRecord>)
    ensures TotalSize(a + b) == TotalSize(a) + TotalSize(b)
    decreases |b|
  {
    if b == [] {
      assert a + b == a;
    } else {
      TotalSizeAppend(a, b[..|b| - 1]);
      assert (a + b)[..|a + b| - 1] == a + b[..|b| - 1];
    }
  }

  /** `getFlowRecords(fromNode, toNode)`: the records from `fromNode` (when non-empty) to `toNode` (when non-empty), in order. */
  function Select(rs: seq<FlowRecord>, fromNode: string, toNode: string): (r: seq<FlowRecord>)
    ensures forall x :: x in r <==> x in rs && (fromNode == "" || x.fromNode == fromNode) && (toNode == "" || x.toNode == toNode)
    ensures |r| <= |rs|
  {
    if rs == [] then []
    else
      var rest := Select(rs[..|rs| - 1], fromNode, toNode);
      var x := rs[|rs| - 1];
      assert rs == rs[..|rs| - 1] + [x];
      if (fromNode == "" || x.fromNode == fromNode) && (toNode == "" || x.toNode == toNode) then rest + [x] else rest
  }

  /** With neither filter every record is returned. */
  lemma {:induction false} SelectAll(rs: seq<FlowRecord>)
    ensures Select(rs, "", "") == rs
  {
    if rs != [] {
      SelectAll(rs[..|rs| - 1]);
      assert rs == rs[..|rs| - 1] + [rs[|rs| - 1]];
    }
  }

  // ---------------------------------------------------------------------
  // The flow diagram

  /** `s` has `->` at position `i`. */
  predicate ArrowAt(s: string, i: int)
  {
    0 <= i && i + 1 < |s| && s[i] == '-' && s[i + 1] == '>'
  }

  predicate NoArrow(s: string)
  {
    forall i :: 0 <= i < |s| ==> !ArrowAt(s, i)
  }

  /** The position of the first `->` in `s`, if any. */
  function FirstArrow(s: string): (r: Option<nat>)
    ensures r.Some? ==> ArrowAt(s, r.value) && forall j :: 0 <= j < r.value ==> !ArrowAt(s, j)
    ensures r.None? ==> NoArrow(s)
  {
    if |s| < 2 then None
    else if s[0] == '-' && s[1] == '>' then Some(0)
    else
      var rest := FirstArrow(s[1..]);
      assert forall j :: 1 <= j && ArrowAt(s, j) ==> ArrowAt(s[1..], j - 1);
      if rest.Some? then Some(rest.value + 1) else None
  }

  /** `${from}->${to}`, the key of a pair of nodes. */
  function Key(fromNode: string, toNode: string): string
  {
    fromNode + "->" + toNode
  }

  /** `const [from, to] = key.split('->')`: the first two pieces. */
  function SplitKey(key: string): (string, string)
  {
    match FirstArrow(key)
    case None => (key, "")
    case Some(a) =>
      var rest := key[a + 2..];
      match FirstArrow(rest)
      case None => (key[..a], rest)
      case Some(b) => (key[..a], rest[..b])
  }

  /** For node ids without `->`, splitting a key gives back the pair it was built from. */
  lemma KeyRoundTrip(fromNode: string, toNode: string)
    requires NoArrow(fromNode) && NoArrow(toNode)
    ensures SplitKey(Key(fromNode, toNode)) == (fromNode, toNode)
  {
    var key := Key(fromNode, toNode);
    var n := |fromNode|;
    assert ArrowAt(key, n);
    forall j | 0 <= j < n
      ensures !ArrowAt(key, j)
    {
      if j + 1 < n {
        assert key[j] == fromNode[j] && key[j + 1] == fromNode[j + 1];
        assert !ArrowAt(fromNode, j);
      } else {
        assert key[j + 1] == '-';
      }
    }
    assert FirstArrow(key) == Some(n);
    assert key[n + 2..] == toNode;
    assert key[..n] == fromNode;
  }

  /** The distinct keys of the records, in order of first appearance (the `flowCounts` map's order). */
  function KeysOf(rs: seq<FlowRecord>): (ks: seq<string>)
    ensures Distinct(ks)
    ensures forall k :: k in ks <==> exists i :: 0 <= i < |rs| && Key(rs[i].fromNode, rs[i].toNode) == k
  {
    if rs == [] then []
    else
      var ks := KeysOf(rs[..|rs| - 1]);
      var k := Key(rs[|rs| - 1].fromNode, rs[|rs| - 1].toNode);
      assert forall i :: 0 <= i < |rs| - 1 ==> rs[i] == rs[..|rs| - 1][i];
      if k in ks then ks else ks + [k]
  }

  /** How many records carry key `k`. */
  function CountKey(rs: seq<FlowRecord>, k: string): nat
  {
    if rs == [] then 0
    else CountKey(rs[..|rs| - 1], k) + (if Key(rs[|rs| - 1].fromNode, rs[|rs| - 1].toNode) == k then 1 else 0)
  }

  /** A key has a positive count exactly when some record carries it. */
  lemma {:induction false} CountKeyPositive(rs: seq<FlowRecord>, k: string)
    ensures CountKey(rs, k) > 0 <==> k in KeysOf(rs)
  {
    if rs != [] {
      CountKeyPositive(rs[..|rs| - 1], k);
    }
  }

  /** `  ${from} -->|${count}x| ${to}`. */
  function EdgeLine(key: string, count: nat): string
  {
    var (from, to) := SplitKey(key);
    "  " + from + " -->|" + NatToString(count) + "x| " + to + "\n"
  }

  /** One edge line per key, in order. */
  function EdgeLines(keys: seq<string>, rs: seq<FlowRecord>): string
  {
    if keys == [] then "" else EdgeLines(keys[..|keys| - 1], rs) + EdgeLine(keys[|keys| - 1], CountKey(rs, keys[|keys| - 1]))
  }

  /** The diagram when there are no records. */
  const NoFlowDiagram := "graph LR\n  Start[No Data Flow]"

  class DataFlowManager {
    const strictTypeChecking: bool
    const enableTransformers: bool
    const maxDataSize: int
    const logDataFlow: bool
    /** `JSON.stringify(data).length`, or 0 when that throws. */
    const size: Value -> nat
    /** `JSON.parse(JSON.stringify(data))`, or the data itself when that throws. */
    const clone: Value -> Value
    var transformers: seq<Transformer>
    var flowRecords: seq<FlowRecord>

    ghost predicate Valid()
      reads this
    {
      |flowRecords| <= MaxRecords && NamesDistinct(transformers)
    }

    /** `new DataFlowManager(config)`: type checking and transformers on, 10 MB, no logging, unless configured. */
    constructor (strictTypeChecking: Option<bool>, enableTransformers: Option<bool>, maxDataSize: Option<int>,
                 logDataFlow: Option<bool>, size: Value -> nat, clone: Value -> Value)
      ensures Valid()
      ensures this.strictTypeChecking == (if strictTypeChecking.Some? then strictTypeChecking.value else true)
      ensures this.enableTransformers == (if enableTransformers.Some? then enableTransformers.value else true)
      ensures this.maxDataSize == (if maxDataSize.Some? then maxDataSize.value else DefaultMaxDataSize)
      ensures this.logDataFlow == (if logDataFlow.Some? then logDataFlow.value else false)
      ensures this.size == size && this.clone == clone
      ensures transformers == [] && flowRecords == []
    {
      this.strictTypeChecking := if strictTypeChecking.Some? then strictTypeChecking.value else true;
      this.enableTransformers := if enableTransformers.Some? then enableTransformers.value else true;
      this.maxDataSize := if maxDataSize.Some? then maxDataSize.value else DefaultMaxDataSize;
      this.logDataFlow := if logDataFlow.Some? then logDataFlow.value else false;
      this.size := size;
      this.clone := clone;
      transformers := [];
      flowRecords := [];
    }

    /** What `passData` returns for `data`, or the message it throws. */
    function Passes(data: Value): (r: Result<Value, string>)
      reads this`transformers
      ensures r.Err? <==> size(data) > maxDataSize
      ensures r.Err? ==> r.error == "Data size exceeds limit: " + NatToString(size(data)) + " > " + IntToString(maxDataSize) + " bytes"
      ensures r.Ok? ==> r.value == (if enableTransformers then Apply(transformers, clone(data)) else clone(data))
    {
      if size(data) > maxDataSize then
        Err("Data size exceeds limit: " + NatToString(size(data)) + " > " + IntToString(maxDataSize) + " bytes")
      else if enableTransformers then Ok(Apply(transformers, clone(data)))
      else Ok(clone(data))
    }

    /** `applyTransformers(data, fromOutput, toInput)`: the loop over the transformers. */
    method ApplyTransformers(data: Value) returns (result: Value)
      ensures result == Apply(transformers, data)
    {
      result := data;
      for i := 0 to |transformers|
        invariant result == Apply(transformers[..i], data)
      {
        assert transformers[..i + 1][..i] == transformers[..i];
        result := Step(transformers[i], result);
      }
      assert transformers[..|transformers|] == transformers;
    }

    /**
     * `passData(fromNode, fromOutput, toNode, toInput, data)` at time
     * `now`: throws when the data is over the size limit; otherwise the
     * cloned, transformed data, logged when logging is on.
     */
    method PassData(fromNode: string, fromOutput: string, toNode: string, toInput: string, data: Value, now: int)
      returns (r: Result<Value, string>)
      requires Valid()
      modifies this
      ensures Valid()
      ensures r == Passes(data)
      ensures transformers == old(transformers)
      ensures flowRecords == (if r.Ok? && logDataFlow
        then Push(old(flowRecords), FlowRecord(fromNode, fromOutput, toNode, toInput, r.value, now, size(r.value)))
        else old(flowRecords))
    {
      var dataSize := size(data);
      if dataSize > maxDataSize {
        return Err("Data size exceeds limit: " + NatToString(dataSize) + " > " + IntToString(maxDataSize) + " bytes");
      }
      var processed := clone(data);
      if enableTransformers {
        processed := ApplyTransformers(processed);
      }
      if logDataFlow {
        flowRecords := Push(flowRecords, FlowRecord(fromNode, fromOutput, toNode, toInput, processed, now, size(processed)));
      }
      r := Ok(processed);
    }

    /** `registerTransformer(transformer)`. */
    method RegisterTransformer(t: Transformer)
      requires Valid()
      modifies this
      ensures Valid()
      ensures transformers == Register(old(transformers), t) && flowRecords == old(flowRecords)
    {
      RegisterKeepsNamesDistinct(transformers, t);
      transformers := Register(transformers, t);
    }

    /** `getFlowRecords(fromNode, toNode)`. */
    function GetFlowRecords(fromNode: string, toNode: string): (r: seq<FlowRecord>)
      reads this
      ensures forall x :: x in r <==> x in flowRecords && (fromNode == "" || x.fromNode == fromNode) && (toNode == "" || x.toNode == toNode)
    {
      Select(flowRecords, fromNode, toNode)
    }

    /** `clearFlowRecords()`. */
    method ClearFlowRecords()
      requires Valid()
      modifies this
      ensures Valid() && flowRecords == [] && transformers == old(transformers)
    {
      flowRecords := [];
    }

    /** `reset()`: no flow records and no transformers; the configuration stays. */
    method Reset()
      modifies this
      ensures Valid() && flowRecords == [] && transformers == []
    {
      flowRecords, transformers := [], [];
    }

    /** `getStatistics()` without the average: the number of flows, their total size and the transformer count. */
    function GetStatistics(): (r: (nat, nat, nat))
      reads this
      ensures r.0 == |flowRecords| && r.2 == |transformers|
      ensures r.1 == TotalSize(flowRecords)
    {
      (|flowRecords|, TotalSize(flowRecords), |transformers|)
    }

    /** The batch entry `passBatch` reports for one flow carrying `data`. */
    function EntryOf(data: Value): (r: BatchEntry)
      reads this`transformers
      ensures r.Rejected? <==> size(data) > maxDataSize
      ensures r.Passed? ==> Passes(data) == Ok(r.data)
    {
      var p := Passes(data);
      if p.Ok? then Passed(p.value) else Rejected(p.error)
    }

    /** The entries `passBatch(flows)` returns: one per flow, in order. */
    function Entries(flows: seq<Flow>): (r: seq<BatchEntry>)
      reads this`transformers
      ensures |r| == |flows|
      ensures forall i :: 0 <= i < |flows| ==> r[i] == EntryOf(flows[i].data)
    {
      if flows == [] then []
      else
        var init := flows[..|flows| - 1];
        var prev := Entries(init);
        assert forall i :: 0 <= i < |init| ==> prev[i] == EntryOf(flows[i].data);
        prev + [EntryOf(flows[|flows| - 1].data)]
    }

    /**
     * The log after `passBatch(flows)`: each flow that passes pushes its
     * record, in order, when logging is on. Below the bound nothing is
     * dropped; without logging the log stays as it was.
     */
    function BatchLog(log: seq<FlowRecord>, flows: seq<Flow>, now: int): (r: seq<FlowRecord>)
      reads this`transformers
      ensures !logDataFlow ==> r == log
      ensures |log| <= MaxRecords ==> |r| <= MaxRecords
      ensures |log| + |flows| <= MaxRecords ==> log <= r && |r| <= |log| + |flows|
    {
      if flows == [] then log
      else
        var prev := BatchLog(log, flows[..|flows| - 1], now);
        var f := flows[|flows| - 1];
        var p := Passes(f.data);
        if p.Ok? && logDataFlow then
          var rec := FlowRecord(f.fromNode, f.fromOutput, f.toNode, f.toInput, p.value, now, size(p.value));
          assert |log| + |flows| <= MaxRecords ==> |prev| < MaxRecords && log <= prev + [rec];
          Push(prev, rec)
        else prev
    }

    /**
     * With logging on and room for every flow, the batch adds exactly one
     * record per entry that passed.
     */
    lemma {:induction false} BatchLogCountsPassed(log: seq<FlowRecord>, flows: seq<Flow>, now: int)
      requires logDataFlow && |log| + |flows| <= MaxRecords
      ensures |BatchLog(log, flows, now)| == |log| + PassedCount(Entries(flows))
    {
      if flows != [] {
        var init := flows[..|flows| - 1];
        BatchLogCountsPassed(log, init, now);
        var es := Entries(flows);
        assert es[..|es| - 1] == Entries(init);
      }
    }

    /** One more flow: the log grows by what `passData` logs for it. */
    lemma BatchLogStep(log: seq<FlowRecord>, flows: seq<Flow>, i: nat, now: int,
                       prev: seq<FlowRecord>, cur: seq<FlowRecord>, p: Result<Value, string>)
      requires i < |flows|
      requires prev == BatchLog(log, flows[..i], now)
      requires p == Passes(flows[i].data)
      requires cur == (if p.Ok? && logDataFlow
        then Push(prev, FlowRecord(flows[i].fromNode, flows[i].fromOutput, flows[i].toNode, flows[i].toInput, p.value, now, size(p.value)))
        else prev)
      ensures cur == BatchLog(log, flows[..i + 1], now)
    {
      assert flows[..i + 1][..i] == flows[..i];
    }

    /** One more flow: the entries grow by what `passData` returns for it. */
    lemma EntriesStep(flows: seq<Flow>, i: nat, results: seq<BatchEntry>, p: Result<Value, string>)
      requires i < |flows|
      requires results == Entries(flows[..i])
      requires p == Passes(flows[i].data)
      ensures results + [if p.Ok? then Passed(p.value) else Rejected(p.error)] == Entries(flows[..i + 1])
    {
      assert flows[..i + 1][..i] == flows[..i];
    }

    /**
     * `passBatch(flows)` at time `now`: one entry per flow, in order; a
     * rejected flow does not stop the later ones.
     */
    method PassBatch(flows: seq<Flow>, now: int) returns (results: seq<BatchEntry>)
      requires Valid()
      modifies this
      ensures Valid()
      ensures |results| == |flows|
      ensures results == Entries(flows)
      ensures transformers == old(transformers)
      ensures flowRecords == BatchLog(old(flowRecords), flows, now)
    {
      results := [];
      for i := 0 to |flows|
        invariant Valid() && transformers == old(transformers)
        invariant flowRecords == BatchLog(old(flowRecords), flows[..i], now)
        invariant results == Entries(flows[..i])
      {
        var f := flows[i];
        ghost var prev := flowRecords;
        var p := PassData(f.fromNode, f.fromOutput, f.toNode, f.toInput, f.data, now);
        BatchLogStep(old(flowRecords), flows, i, now, prev, flowRecords, p);
        EntriesStep(flows, i, results, p);
        results := results + [if p.Ok? then Passed(p.value) else Rejected(p.error)];
      }
      assert flows[..|flows|] == flows;
    }

    /**
     * `generateVisualization()`: a placeholder without records; otherwise
     * one edge per distinct node pair key, in order of first appearance,
     * labelled with the number of records carrying it.
     */
    method GenerateVisualization() returns (diagram: string)
      ensures flowRecords == [] ==> diagram == NoFlowDiagram
      ensures flowRecords != [] ==> diagram == "graph LR\n" + EdgeLines(KeysOf(flowRecords), flowRecords)
    {
      if |flowRecords| == 0 {
        return NoFlowDiagram;
      }
      var rs := flowRecords;
      var keys, counts := CountFlows(rs);
      var edges := "";
      for j := 0 to |keys|
        invariant edges == EdgeLines(keys[..j], rs)
      {
        assert keys[..j + 1][..j] == keys[..j];
        edges := edges + EdgeLine(keys[j], counts[keys[j]]);
      }
      assert keys[..|keys|] == keys;
      diagram := "graph LR\n" + edges;
    }
  }

  /** One step of the counting: record `i` adds one to its own key's count. */
  lemma CountKeyStep(rs: seq<FlowRecord>, i: nat, x: string)
    requires i < |rs|
    ensures CountKey(rs[..i + 1], x) == CountKey(rs[..i], x) + (if x == Key(rs[i].fromNode, rs[i].toNode) then 1 else 0)
  {
    assert rs[..i + 1][..i] == rs[..i];
  }

  /** The `flowCounts` loop of `generateVisualization`: the keys in insertion order and their counts. */
  method CountFlows(rs: seq<FlowRecord>) returns (keys: seq<string>, counts: map<string, nat>)
    ensures keys == KeysOf(rs)
    ensures forall k :: k in counts <==> k in keys
    ensures forall k :: k in counts ==> counts[k] == CountKey(rs, k)
  {
    keys := [];
    counts := map[];
    for i := 0 to |rs|
      invariant keys == KeysOf(rs[..i])
      invariant forall k :: k in counts <==> k in keys
      invariant forall k :: k in counts ==> counts[k] == CountKey(rs[..i], k)
    {
      var k := Key(rs[i].fromNode, rs[i].toNode);
      assert rs[..i + 1][..i] == rs[..i];
      CountKeyPositive(rs[..i], k);
      forall x | x in counts
        ensures CountKey(rs[..i + 1], x) == counts[x] + (if x == k then 1 else 0)
      {
        CountKeyStep(rs, i, x);
      }
      counts := counts[k := (if k in counts then counts[k] else 0) + 1];
      if k !in keys {
        keys := keys + [k];
      }
    }
    assert rs[..|rs|] == rs;
  }

  /** The edge of every recorded pair of node ids without `->` shows those ids and its count. */
  lemma EdgeShowsPair(rs: seq<FlowRecord>, i: nat)
    requires i < |rs| && NoArrow(rs[i].fromNode) && NoArrow(rs[i].toNode)
    ensures var k := Key(rs[i].fromNode, rs[i].toNode);
      k in KeysOf(rs) && CountKey(rs, k) > 0
      && EdgeLine(k, CountKey(rs, k))
         == "  " + rs[i].fromNode + " -->|" + NatToString(CountKey(rs, k)) + "x| " + rs[i].toNode + "\n"
  {
    var k := Key(rs[i].fromNode, rs[i].toNode);
    CountKeyPositive(rs, k);
    KeyRoundTrip(rs[i].fromNode, rs[i].toNode);
  }
}
