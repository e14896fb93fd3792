/**
 * The v3 workflow engine (functions/api/pipeline-v3/WorkflowEngine.ts):
 * node instantiation from the registry, validation of the workflow, and
 * execution that follows connections from the entry node, routing failures
 * to error handlers, with a bounded history of runs. What a node's
 * `execute` does is a parameter `run`; the clock, and the random part of
 * generated execution ids, are parameters too.
 */
module Engine {
  import opened Common
  import opened Node
  import opened WorkflowGraph
  import Execution

  /** `CompleteWorkflowDefinition`, the fields the engine reads. */
  datatype Workflow = Workflow(id: string, nodes: seq<NodeDef>, connections: seq<Connection>, traceExecution: bool)

  /** A node instance, `new NodeClass(nodeDef.config)`: its class's metadata and the merged configuration. */
  datatype NodeInstance = NodeInstance(metadata: NodeMetadata, config: map<string, Value>)

  const MaxHistorySize := 100

  // ---------------------------------------------------------------------
  // initializeNodes

  function NotRegistered(d: NodeDef): string
  {
    "Node type not registered: " + d.typeName + " (required by " + d.id + ")"
  }

  function Instantiate(c: NodeClass, d: NodeDef): NodeInstance
  {
    NodeInstance(c.metadata, MergeConfig(c.metadata.config, d.config))
  }

  /**
   * The node map built from the definitions in order: it fails at the first
   * definition whose type is not registered, and otherwise has one entry per
   * node id.
   */
  function InitSpec(defs: seq<NodeDef>, registry: map<string, NodeClass>): (r: Result<map<string, NodeInstance>, string>)
    ensures r.Ok? <==> forall k :: 0 <= k < |defs| ==> defs[k].typeName in registry
    ensures r.Ok? ==> r.value.Keys == NodeIds(defs)
  {
    if defs == [] then Ok(map[])
    else
      var n := |defs| - 1;
      var d := defs[n];
      var prev := InitSpec(defs[..n], registry);
      if prev.Err? then
        assert exists k :: 0 <= k < n && defs[..n][k].typeName !in registry;
        prev
      else if d.typeName !in registry then Err(NotRegistered(d))
      else
        assert forall k :: 0 <= k < n ==> defs[..n][k] == defs[k];
        assert NodeIds(defs) == NodeIds(defs[..n]) + {d.id} by {
          forall x | x in NodeIds(defs)
            ensures x in NodeIds(defs[..n]) + {d.id}
          {
            var k :| 0 <= k < |defs| && defs[k].id == x;
            if k < n {
              assert defs[..n][k].id == x;
            }
          }
        }
        Ok(prev.value[d.id := Instantiate(registry[d.typeName], d)])
  }

  /** The error names the first definition whose type is not registered. */
  lemma {:induction false} InitFailsAtFirst(defs: seq<NodeDef>, registry: map<string, NodeClass>)
    requires InitSpec(defs, registry).Err?
    ensures exists k :: 0 <= k < |defs| && defs[k].typeName !in registry
                        && InitSpec(defs, registry).error == NotRegistered(defs[k])
                        && forall j :: 0 <= j < k ==> defs[j].typeName in registry
  {
    var n := |defs| - 1;
    assert forall k :: 0 <= k < n ==> defs[..n][k] == defs[k];
    if InitSpec(defs[..n], registry).Err? {
      InitFailsAtFirst(defs[..n], registry);
      var k :| 0 <= k < n && defs[..n][k].typeName !in registry
               && InitSpec(defs[..n], registry).error == NotRegistered(defs[..n][k])
               && forall j :: 0 <= j < k ==> defs[..n][j].typeName in registry;
    }
  }

  /** A node id maps to the instance of its last definition: a later definition replaces an earlier one. */
  lemma {:induction false} InitKeepsLast(defs: seq<NodeDef>, registry: map<string, NodeClass>, k: nat)
    requires InitSpec(defs, registry).Ok?
    requires k < |defs| && forall j :: k < j < |defs| ==> defs[j].id != defs[k].id
    ensures defs[k].id in InitSpec(defs, registry).value
    ensures InitSpec(defs, registry).value[defs[k].id] == Instantiate(registry[defs[k].typeName], defs[k])
  {
    var n := |defs| - 1;
    assert defs[k].id in NodeIds(defs);
    if k < n {
      assert forall i :: 0 <= i < n ==> defs[..n][i] == defs[i];
      InitKeepsLast(defs[..n], registry, k);
    }
  }

  // ---------------------------------------------------------------------
  // validateWorkflow

  /** Both ends of every connection are nodes of the map. */
  predicate EndpointsKnown(conns: seq<Connection>, nodes: map<string, NodeInstance>)
  {
    forall i :: 0 <= i < |conns| ==> conns[i].from in nodes && conns[i].to in nodes
  }

  /** The first unknown endpoint, `from` before `to`, connection by connection. */
  function FirstUnknown(conns: seq<Connection>, nodes: map<string, NodeInstance>): (r: Option<string>)
    ensures r.None? <==> EndpointsKnown(conns, nodes)
    ensures r.Some? ==> r.value !in nodes && exists i :: 0 <= i < |conns| && r.value in {conns[i].from, conns[i].to}
  {
    if conns == [] then None
    else if conns[0].from !in nodes then Some(conns[0].from)
    else if conns[0].to !in nodes then Some(conns[0].to)
    else
      assert forall i :: 1 <= i < |conns| ==> conns[i] == conns[1..][i - 1];
      var rest := FirstUnknown(conns[1..], nodes);
      if rest.Some? then
        var i :| 0 <= i < |conns[1..]| && rest.value in {conns[1..][i].from, conns[1..][i].to};
        assert conns[i + 1] == conns[1..][i];
        rest
      else
        rest
  }

  // ---------------------------------------------------------------------
  // executeNode

  /** What `node.execute(input, context)` does: it returns a result or throws a value. */
  datatype NodeOutcome = Returned(result: NodeResult) | Raised(error: Value)

  /**
   * What one execution depends on: the connections, the node instances, the
   * behaviour of each node's `execute`, the context's verbose flag, and the
   * clock reading used for every trace record.
   */
  datatype Env = Env(
    conns: seq<Connection>, nodes: map<string, NodeInstance>,
    run: (string, Payload) -> NodeOutcome, verbose: bool, now: int)

  /** The value an execution finishes with or throws, and the trace records it appends, in order. */
  datatype Run = Run(result: Result<Payload, Value>, records: seq<Execution.ExecutionRecord>)

  /** `new Error(message)`. */
  function ErrorObject(message: string): Value
  {
    Obj(true, map["message" := Str(message)])
  }

  /** The error handler's input after a throw: `{ error, nodeId, nodeName }`. */
  function HandlerInput(error: Value, nodeId: string, nodeName: string): Value
  {
    Obj(false, map["error" := error, "nodeId" := Str(nodeId), "nodeName" := Str(nodeName)])
  }

  /** `result.error?.message || 'Unknown error'`. */
  function FailureText(error: Option<string>): string
  {
    if error.Some? && error.value != "" then error.value else "Unknown error"
  }

  /** Every connection's source is ranked and connections lead to lower ranks. */
  ghost predicate Ranked(conns: seq<Connection>, rank: map<string, nat>)
  {
    RankedEdges(conns, rank) && forall i :: 0 <= i < |conns| ==> conns[i].from in rank
  }

  function Height(rank: map<string, nat>, x: string): nat
  {
    if x in rank then rank[x] else 0
  }

  /**
   * The `try` block of `executeNode` for a node that exists: the node's own
   * outcome, then the error handler for a failed result or the next node for
   * a successful one. An error result is a value the block throws.
   */
  function Attempt(env: Env, ghost rank: map<string, nat>, nodeId: string, name: string, input: Payload): (out: Run)
    requires Ranked(env.conns, rank)
    decreases Height(rank, nodeId), 1
  {
    match env.run(nodeId, input)
    case Raised(e) => Run(Err(e), [])
    case Returned(res) =>
      var done := [Execution.ExecutionRecord(nodeId, Execution.Completed, env.now, Some(res), None, None)];
      if !res.success then
        var h := FindErrorHandler(env.conns, nodeId);
        TargetRanksLower(env.conns, rank, nodeId, "error");
        if h.Some? then
          var sub := Exec(env, rank, h.value, res.output);
          Run(sub.result, done + sub.records)
        else
          Run(Err(ErrorObject("Node execution failed: " + name + " - " + FailureText(res.error))), done)
      else
        var next := FindNextNode(env.conns, nodeId, res.outputName);
        TargetRanksLower(env.conns, rank, nodeId, res.outputName);
        if next.Some? then
          var sub := Exec(env, rank, next.value, res.output);
          Run(sub.result, done + sub.records)
        else
          Run(Ok(res.output), done)
  }

  /** The `catch` block after the error record: the error handler with `{ error, nodeId, nodeName }`, or the throw passed on. */
  function Recover(env: Env, ghost rank: map<string, nat>, nodeId: string, name: string, e: Value): (out: Run)
    requires Ranked(env.conns, rank)
    decreases Height(rank, nodeId), 0
  {
    var h := FindErrorHandler(env.conns, nodeId);
    TargetRanksLower(env.conns, rank, nodeId, "error");
    if h.None? then Run(Err(e), [])
    else Exec(env, rank, h.value, Data(HandlerInput(e, nodeId, name)))
  }

  function StartRecord(env: Env, nodeId: string, input: Payload): Execution.ExecutionRecord
  {
    Execution.ExecutionRecord(nodeId, Execution.Started, env.now, None, None, if env.verbose then Some(input) else None)
  }

  function ErrorRecord(env: Env, nodeId: string, e: Value): Execution.ExecutionRecord
  {
    Execution.ExecutionRecord(nodeId, Execution.Failed, env.now, None, Some(e), None)
  }

  /**
   * `executeNode(nodeId, input, context)`: an unknown node throws; otherwise
   * a start record and the `try` block, and on a throw an error record and
   * the `catch` block. Every call goes along a connection to a lower rank,
   * so every execution is finite.
   */
  function Exec(env: Env, ghost rank: map<string, nat>, nodeId: string, input: Payload): (out: Run)
    requires Ranked(env.conns, rank)
    ensures nodeId !in env.nodes ==> out == Run(Err(ErrorObject("Node not found: " + nodeId)), [])
    ensures nodeId in env.nodes ==> |out.records| > 0 && out.records[0] == StartRecord(env, nodeId, input)
    decreases Height(rank, nodeId), 2
  {
    if nodeId !in env.nodes then Run(Err(ErrorObject("Node not found: " + nodeId)), [])
    else
      var name := env.nodes[nodeId].metadata.name;
      var body := Attempt(env, rank, nodeId, name, input);
      if body.result.Ok? then Run(body.result, [StartRecord(env, nodeId, input)] + body.records)
      else
        var e := body.result.error;
        var caught := Recover(env, rank, nodeId, name, e);
        Run(caught.result, [StartRecord(env, nodeId, input)] + body.records + [ErrorRecord(env, nodeId, e)] + caught.records)
  }

  /** `rec` completed a node successfully with output `p`, and no connection leaves through its output name. */
  predicate IsTerminal(conns: seq<Connection>, rec: Execution.ExecutionRecord, p: Payload)
  {
    && rec.status == Execution.Completed && rec.result.Some? && rec.result.value.success
    && rec.result.value.output == p
    && FindNextNode(conns, rec.nodeId, rec.result.value.outputName).None?
  }

  /** Some record of `out` shows where its return value came from. */
  predicate ReturnExplained(conns: seq<Connection>, out: Run)
  {
    out.result.Ok? ==> exists rec :: rec in out.records && IsTerminal(conns, rec, out.result.value)
  }

  /**
   * What an execution returns is the output of a node that succeeded and
   * has no next node: failures never turn into a return value by themselves.
   */
  lemma {:induction false} ReturnIsTerminal(env: Env, rank: map<string, nat>, nodeId: string, input: Payload)
    requires Ranked(env.conns, rank)
    ensures ReturnExplained(env.conns, Exec(env, rank, nodeId, input))
    decreases Height(rank, nodeId), 2
  {
    if nodeId in env.nodes {
      var name := env.nodes[nodeId].metadata.name;
      var body := Attempt(env, rank, nodeId, name, input);
      if body.result.Ok? {
        AttemptReturnIsTerminal(env, rank, nodeId, name, input);
      } else {
        RecoverReturnIsTerminal(env, rank, nodeId, name, body.result.error);
      }
    }
  }

  lemma {:induction false} RecoverReturnIsTerminal(env: Env, rank: map<string, nat>, nodeId: string, name: string, e: Value)
    requires Ranked(env.conns, rank)
    ensures ReturnExplained(env.conns, Recover(env, rank, nodeId, name, e))
    decreases Height(rank, nodeId), 0
  {
    var h := FindErrorHandler(env.conns, nodeId);
    TargetRanksLower(env.conns, rank, nodeId, "error");
    if h.Some? {
      ReturnIsTerminal(env, rank, h.value, Data(HandlerInput(e, nodeId, name)));
    }
  }

  lemma {:induction false} AttemptReturnIsTerminal(env: Env, rank: map<string, nat>, nodeId: string, name: string, input: Payload)
    requires Ranked(env.conns, rank)
    ensures ReturnExplained(env.conns, Attempt(env, rank, nodeId, name, input))
    decreases Height(rank, nodeId), 1
  {
    if env.run(nodeId, input).Returned? {
      var res := env.run(nodeId, input).result;
      if !res.success {
        var h := FindErrorHandler(env.conns, nodeId);
        TargetRanksLower(env.conns, rank, nodeId, "error");
        if h.Some? {
          ReturnIsTerminal(env, rank, h.value, res.output);
        }
      } else {
        var next := FindNextNode(env.conns, nodeId, res.outputName);
        TargetRanksLower(env.conns, rank, nodeId, res.outputName);
        if next.Some? {
          ReturnIsTerminal(env, rank, next.value, res.output);
        } else {
          var done := Execution.ExecutionRecord(nodeId, Execution.Completed, env.now, Some(res), None, None);
          assert IsTerminal(env.conns, done, res.output);
          assert Attempt(env, rank, nodeId, name, input).records == [done];
        }
      }
    }
  }

  /** A thrown error of `out` was recorded as a node error. */
  predicate ErrorRecorded(out: Run)
  {
    out.result.Err? ==> exists rec :: rec in out.records && rec.status == Execution.Failed && rec.error == Some(out.result.error)
  }

  /**
   * Every error an execution throws was recorded against the node that
   * gave it up, when all connections lead to known nodes.
   */
  lemma {:induction false} ThrownErrorIsRecorded(env: Env, rank: map<string, nat>, nodeId: string, input: Payload)
    requires Ranked(env.conns, rank) && EndpointsKnown(env.conns, env.nodes) && nodeId in env.nodes
    ensures ErrorRecorded(Exec(env, rank, nodeId, input))
    decreases Height(rank, nodeId)
  {
    var name := env.nodes[nodeId].metadata.name;
    var body := Attempt(env, rank, nodeId, name, input);
    if body.result.Err? {
      var e := body.result.error;
      var h := FindErrorHandler(env.conns, nodeId);
      TargetRanksLower(env.conns, rank, nodeId, "error");
      if h.None? {
        assert ErrorRecord(env, nodeId, e) in Exec(env, rank, nodeId, input).records;
      } else {
        var i :| 0 <= i < |env.conns| && Leaves(env.conns[i], nodeId, "error") && env.conns[i].to == h.value;
        ThrownErrorIsRecorded(env, rank, h.value, Data(HandlerInput(e, nodeId, name)));
      }
    }
  }

  /**
   * A node with an error handler passes on an error only from a run of
   * that handler: downstream throws are caught and routed to it.
   */
  lemma HandlerCatches(env: Env, rank: map<string, nat>, nodeId: string, input: Payload)
    requires Ranked(env.conns, rank) && nodeId in env.nodes
    requires FindErrorHandler(env.conns, nodeId).Some?
    ensures var out := Exec(env, rank, nodeId, input);
      out.result.Err? ==> exists p :: out.result == Exec(env, rank, FindErrorHandler(env.conns, nodeId).value, p).result
  {
    var out := Exec(env, rank, nodeId, input);
    var name := env.nodes[nodeId].metadata.name;
    var body := Attempt(env, rank, nodeId, name, input);
    if out.result.Err? {
      assert body.result.Err?;
      var h := FindErrorHandler(env.conns, nodeId).value;
      var p := Data(HandlerInput(body.result.error, nodeId, name));
      assert out.result == Recover(env, rank, nodeId, name, body.result.error).result;
      assert out.result == Exec(env, rank, h, p).result;
    }
  }

  // ---------------------------------------------------------------------
  // The engine

  class WorkflowEngine {
    const workflow: Workflow
    var nodes: map<string, NodeInstance>
    var history: seq<Execution.ExecutionContext>
    /** The ranking found by the cycle search: connections lead to lower ranks. */
    ghost var rank: map<string, nat>

    /** A constructed engine: every node instantiated, the graph checked, the history bounded. */
    ghost predicate Valid()
      reads this
    {
      && |workflow.nodes| > 0
      && nodes.Keys == NodeIds(workflow.nodes)
      && EndpointsKnown(workflow.connections, nodes)
      && RankedEdges(workflow.connections, rank)
      && nodes.Keys <= rank.Keys
      && |history| <= MaxHistorySize
    }

    /** The fields as the constructor sets them, before nodes are initialised. */
    constructor (workflow: Workflow)
      ensures this.workflow == workflow && nodes == map[] && history == []
    {
      this.workflow := workflow;
      nodes := map[];
      history := [];
      rank := map[];
    }

    /** `initializeNodes()`: one instance per definition, in order, from the registry's classes. */
    method InitializeNodes(registry: NodeRegistry) returns (r: Result<(), string>)
      modifies this
      ensures r.Ok? <==> InitSpec(workflow.nodes, registry.nodes).Ok?
      ensures r.Ok? ==> nodes == InitSpec(workflow.nodes, registry.nodes).value
      ensures r.Err? ==> r.error == InitSpec(workflow.nodes, registry.nodes).error
      ensures history == old(history) && rank == old(rank)
    {
      var defs := workflow.nodes;
      nodes := map[];
      var i := 0;
      while i < |defs|
        invariant 0 <= i <= |defs|
        invariant InitSpec(defs[..i], registry.nodes) == Ok(nodes)
        invariant history == old(history) && rank == old(rank)
      {
        assert defs[..i + 1][..i] == defs[..i];
        var c := registry.Get(defs[i].typeName);
        if c.None? {
          InitStopsAt(defs, registry.nodes, i);
          return Err(NotRegistered(defs[i]));
        }
        nodes := nodes[defs[i].id := Instantiate(c.value, defs[i])];
        i := i + 1;
      }
      assert defs[..i] == defs;
      r := Ok(());
    }

    /**
     * `validateWorkflow()`: at least one node, both ends of every connection
     * known, and no cycle; the missing-entry case only logs a warning.
     */
    method ValidateWorkflow() returns (r: Result<(), string>)
      requires nodes.Keys == NodeIds(workflow.nodes)
      modifies this
      ensures r.Ok? <==> |workflow.nodes| > 0 && EndpointsKnown(workflow.connections, nodes) && !HasCycle(workflow.connections)
      ensures |workflow.nodes| == 0 ==> r == Err("Workflow must have at least one node")
      ensures |workflow.nodes| > 0 && !EndpointsKnown(workflow.connections, nodes) ==>
        r == Err("Connection references non-existent node: " + FirstUnknown(workflow.connections, nodes).value)
      ensures r.Ok? ==> RankedEdges(workflow.connections, rank) && nodes.Keys <= rank.Keys
      ensures nodes == old(nodes) && history == old(history)
    {
      if |workflow.nodes| == 0 {
        return Err("Workflow must have at least one node");
      }
      var conns := workflow.connections;
      var i := 0;
      while i < |conns|
        invariant 0 <= i <= |conns|
        invariant FirstUnknown(conns, nodes) == FirstUnknown(conns[i..], nodes)
      {
        assert conns[i..][1..] == conns[i + 1..];
        if conns[i].from !in nodes {
          return Err("Connection references non-existent node: " + conns[i].from);
        }
        if conns[i].to !in nodes {
          return Err("Connection references non-existent node: " + conns[i].to);
        }
        i := i + 1;
      }
      var res;
      res, rank := DetectCycles(workflow.nodes, conns);
      r := res;
    }

    /** A constructed engine has an entry node, since its ranking orders every node. */
    lemma HasEntry()
      requires Valid()
      ensures FindEntryNode(workflow.nodes, workflow.connections).Some?
    {
      EntryExists(workflow.nodes, workflow.connections, rank);
    }

    /** Every connection of a constructed engine leaves a ranked node. */
    lemma ValidRanked()
      requires Valid()
      ensures Ranked(workflow.connections, rank)
    {
    }

    /**
     * `executeNode(nodeId, input, context)`, with `run` standing for each
     * node's `execute`: it returns or throws what `Exec` describes and
     * appends `Exec`'s records to the trace.
     */
    method ExecuteNode(nodeId: string, input: Payload, context: Execution.ExecutionContext,
                       run: (string, Payload) -> NodeOutcome, now: int) returns (r: Result<Payload, Value>)
      requires Ranked(workflow.connections, rank)
      modifies context
      ensures var out := Exec(Env(workflow.connections, nodes, run, context.verbose, now), rank, nodeId, input);
        r == out.result && context.trace == old(context.trace) + out.records
      ensures context.data == old(context.data)
      decreases Height(rank, nodeId), 2
    {
      if nodeId !in nodes {
        return Err(ErrorObject("Node not found: " + nodeId));
      }
      var name := nodes[nodeId].metadata.name;
      ghost var env := Env(workflow.connections, nodes, run, context.verbose, now);
      ghost var before := context.trace;
      context.RecordNodeStart(nodeId, input, now);
      r := TryNode(nodeId, name, input, context, run, now);
      ghost var body := Attempt(env, rank, nodeId, name, input);
      AppendAssoc(before, [StartRecord(env, nodeId, input)], body.records);
      if r.Err? {
        var e := r.error;
        context.RecordNodeError(nodeId, e, now);
        AppendAssoc(before, [StartRecord(env, nodeId, input)] + body.records, [ErrorRecord(env, nodeId, e)]);
        r := CatchNode(nodeId, name, e, context, run, now);
        AppendAssoc(before, [StartRecord(env, nodeId, input)] + body.records + [ErrorRecord(env, nodeId, e)],
                    Recover(env, rank, nodeId, name, e).records);
      }
    }

    /** The `try` block of `executeNode`: the node's run, then the failure or success routing. */
    method TryNode(nodeId: string, name: string, input: Payload, context: Execution.ExecutionContext,
                   run: (string, Payload) -> NodeOutcome, now: int) returns (r: Result<Payload, Value>)
      requires Ranked(workflow.connections, rank)
      modifies context
      ensures var out := Attempt(Env(workflow.connections, nodes, run, context.verbose, now), rank, nodeId, name, input);
        r == out.result && context.trace == old(context.trace) + out.records
      ensures context.data == old(context.data)
      decreases Height(rank, nodeId), 1
    {
      match run(nodeId, input)
      case Raised(e) =>
        r := Err(e);
      case Returned(res) =>
        ghost var before := context.trace;
        context.RecordNodeComplete(nodeId, res, now);
        ghost var done := [Execution.ExecutionRecord(nodeId, Execution.Completed, now, Some(res), None, None)];
        if !res.success {
          var h := FindErrorHandler(workflow.connections, nodeId);
          TargetRanksLower(workflow.connections, rank, nodeId, "error");
          if h.Some? {
            r := ExecuteNode(h.value, res.output, context, run, now);
            AppendAssoc(before, done, Exec(Env(workflow.connections, nodes, run, context.verbose, now), rank, h.value, res.output).records);
          } else {
            r := Err(ErrorObject("Node execution failed: " + name + " - " + FailureText(res.error)));
          }
        } else {
          var next := FindNextNode(workflow.connections, nodeId, res.outputName);
          TargetRanksLower(workflow.connections, rank, nodeId, res.outputName);
          if next.Some? {
            r := ExecuteNode(next.value, res.output, context, run, now);
            AppendAssoc(before, done, Exec(Env(workflow.connections, nodes, run, context.verbose, now), rank, next.value, res.output).records);
          } else {
            r := Ok(res.output);
          }
        }
    }

    /** The `catch` block of `executeNode`, after the error record. */
    method CatchNode(nodeId: string, name: string, e: Value, context: Execution.ExecutionContext,
                     run: (string, Payload) -> NodeOutcome, now: int) returns (r: Result<Payload, Value>)
      requires Ranked(workflow.connections, rank)
      modifies context
      ensures var out := Recover(Env(workflow.connections, nodes, run, context.verbose, now), rank, nodeId, name, e);
        r == out.result && context.trace == old(context.trace) + out.records
      ensures context.data == old(context.data)
      decreases Height(rank, nodeId), 0
    {
      var h := FindErrorHandler(workflow.connections, nodeId);
      TargetRanksLower(workflow.connections, rank, nodeId, "error");
      if h.None? {
        r := Err(e);
      } else {
        r := ExecuteNode(h.value, Data(HandlerInput(e, nodeId, name)), context, run, now);
      }
    }

    /**
     * `execute(initialInput, options)`: a fresh context under the given or a
     * generated id, verbose when asked or when the workflow traces; the run
     * from the entry node; and the context kept in the history whether the
     * run returned or threw.
     */
    method Execute(initialInput: Value, executionId: Option<string>, verbose: bool, generatedId: string, now: int,
                   run: (string, Payload) -> NodeOutcome, measure: Execution.Measure)
      returns (r: Result<Payload, Value>, context: Execution.ExecutionContext)
      requires Valid()
      modifies this
      ensures Valid() && fresh(context)
      ensures nodes == old(nodes) && rank == old(rank)
      ensures context.executionId == (if executionId.Some? && executionId.value != "" then executionId.value else generatedId)
      ensures context.workflowId == workflow.id && context.verbose == (verbose || workflow.traceExecution)
      ensures history == Bounded(old(history) + [context])
      ensures var entry := FindEntryNode(workflow.nodes, workflow.connections);
        && (entry.None? ==> r == Err(ErrorObject("No entry node found in workflow")) && context.trace == [])
        && (entry.Some? ==> var out := Exec(Env(workflow.connections, nodes, run, context.verbose, now), rank, entry.value, Data(initialInput));
              r == out.result && context.trace == out.records)
    {
      var id := if executionId.Some? && executionId.value != "" then executionId.value else generatedId;
      context := new Execution.ExecutionContext(id, workflow.id, now, Bool(verbose || workflow.traceExecution), Undefined, measure);
      var entry := FindEntryNode(workflow.nodes, workflow.connections);
      if entry.None? {
        r := Err(ErrorObject("No entry node found in workflow"));
      } else {
        ValidRanked();
        r := ExecuteNode(entry.value, Data(initialInput), context, run, now);
      }
      AddToHistory(context);
    }

    /** `getExecutionHistory(limit)`: the last `limit` runs, all of them when `limit` is 0 (falsy). */
    function GetExecutionHistory(limit: int): (r: seq<Execution.ExecutionContext>)
      reads this
      ensures limit == 0 ==> r == history
      ensures limit > 0 ==> |r| == (if limit < |history| then limit else |history|) && r == history[|history| - |r|..]
      ensures limit < 0 ==> r == history[(if -limit < |history| then -limit else |history|)..]
    {
      if limit == 0 then history else history[SliceStart(|history|, -limit)..]
    }

    /** `generateVisualization()`: the workflow as a Mermaid flowchart, one line per node and per connection. */
    method GenerateVisualization() returns (diagram: string)
      ensures diagram == Diagram(workflow, nodes)
    {
      diagram := "graph TD\n";
      var defs := workflow.nodes;
      for i := 0 to |defs|
        invariant diagram == "graph TD\n" + Boxes(defs[..i], nodes)
      {
        assert defs[..i + 1][..i] == defs[..i];
        AppendAssoc("graph TD\n", Boxes(defs[..i], nodes), NodeLine(defs[i], nodes));
        diagram := diagram + NodeLine(defs[i], nodes);
      }
      assert defs[..|defs|] == defs;
      var conns := workflow.connections;
      for j := 0 to |conns|
        invariant diagram == "graph TD\n" + Boxes(defs, nodes) + Arrows(conns[..j])
      {
        assert conns[..j + 1][..j] == conns[..j];
        AppendAssoc("graph TD\n" + Boxes(defs, nodes), Arrows(conns[..j]), ConnLine(conns[j]));
        diagram := diagram + ConnLine(conns[j]);
      }
      assert conns[..|conns|] == conns;
    }

    /** `getExecution(executionId)`: the oldest kept run with that id. */
    function GetExecution(executionId: string): (r: Option<Execution.ExecutionContext>)
      reads this
      ensures r.None? <==> forall i :: 0 <= i < |history| ==> history[i].executionId != executionId
      ensures r.Some? ==> exists i :: 0 <= i < |history| && history[i] == r.value && r.value.executionId == executionId
                                      && forall j :: 0 <= j < i ==> history[j].executionId != executionId
    {
      FindContext(history, executionId)
    }

    /** `addToHistory(context)`: appended, the oldest dropped beyond the cap. */
    method AddToHistory(context: Execution.ExecutionContext)
      modifies this
      ensures history == Bounded(old(history) + [context])
      ensures nodes == old(nodes) && rank == old(rank)
    {
      history := history + [context];
      if |history| > MaxHistorySize {
        history := history[1..];
      }
    }
  }

  /** When a prefix builds and the next type is not registered, the whole fails with that type's message. */
  lemma {:induction false} InitStopsAt(defs: seq<NodeDef>, registry: map<string, NodeClass>, i: nat)
    requires i < |defs| && InitSpec(defs[..i], registry).Ok? && defs[i].typeName !in registry
    ensures InitSpec(defs, registry) == Err(NotRegistered(defs[i]))
  {
    if i + 1 < |defs| {
      var n := |defs| - 1;
      assert defs[..n][..i] == defs[..i];
      InitStopsAt(defs[..n], registry, i);
    } else {
      assert defs[..|defs| - 1] == defs[..i];
    }
  }

  /** The node lines of `generateVisualization`, one per definition, in order. */
  function Boxes(defs: seq<NodeDef>, nodes: map<string, NodeInstance>): string
  {
    if defs == [] then "" else Boxes(defs[..|defs| - 1], nodes) + NodeLine(defs[|defs| - 1], nodes)
  }

  /** The connection lines of `generateVisualization`, one per connection, in order. */
  function Arrows(conns: seq<Connection>): string
  {
    if conns == [] then "" else Arrows(conns[..|conns| - 1]) + ConnLine(conns[|conns| - 1])
  }

  /** The lines of the first `k` definitions begin the node lines. */
  lemma {:induction false} BoxesPrefix(defs: seq<NodeDef>, nodes: map<string, NodeInstance>, k: nat)
    requires k <= |defs|
    ensures Boxes(defs[..k], nodes) <= Boxes(defs, nodes)
    decreases |defs| - k
  {
    if k < |defs| {
      BoxesPrefix(defs, nodes, k + 1);
      assert defs[..k + 1][..k] == defs[..k];
    } else {
      assert defs[..k] == defs;
    }
  }

  /** The lines of the first `k` connections begin the connection lines. */
  lemma {:induction false} ArrowsPrefix(conns: seq<Connection>, k: nat)
    requires k <= |conns|
    ensures Arrows(conns[..k]) <= Arrows(conns)
    decreases |conns| - k
  {
    if k < |conns| {
      ArrowsPrefix(conns, k + 1);
      assert conns[..k + 1][..k] == conns[..k];
    } else {
      assert conns[..k] == conns;
    }
  }

  /** A node's box: its icon, and its own name, else its type's name, else its id. */
  function NodeLine(d: NodeDef, nodes: map<string, NodeInstance>): string
  {
    var icon := if d.id in nodes then nodes[d.id].metadata.icon else "";
    var name :=
      if d.name != "" then d.name
      else if d.id in nodes && nodes[d.id].metadata.name != "" then nodes[d.id].metadata.name
      else d.id;
    "  " + d.id + "[\"" + icon + " " + name + "\"]\n"
  }

  /** An arrow, labelled with the output name unless that is `success`. */
  function ConnLine(c: Connection): string
  {
    var tag := if c.fromOutput != "success" then "|" + c.fromOutput + "|" else "";
    "  " + c.from + " " + tag + "-->" + c.to + "\n"
  }

  function Diagram(workflow: Workflow, nodes: map<string, NodeInstance>): string
  {
    "graph TD\n" + Boxes(workflow.nodes, nodes) + Arrows(workflow.connections)
  }

  /**
   * The diagram is the header, then the lines of the node definitions in
   * their order (each prefix of the definitions gives a prefix of the
   * diagram), then the lines of the connections in their order.
   */
  lemma DiagramLists(workflow: Workflow, nodes: map<string, NodeInstance>)
    ensures forall k :: 0 <= k <= |workflow.nodes| ==>
      "graph TD\n" + Boxes(workflow.nodes[..k], nodes) <= Diagram(workflow, nodes)
    ensures forall k :: 0 <= k <= |workflow.connections| ==>
      "graph TD\n" + Boxes(workflow.nodes, nodes) + Arrows(workflow.connections[..k]) <= Diagram(workflow, nodes)
  {
    forall k | 0 <= k <= |workflow.nodes|
      ensures "graph TD\n" + Boxes(workflow.nodes[..k], nodes) <= Diagram(workflow, nodes)
    {
      BoxesPrefix(workflow.nodes, nodes, k);
      PrefixAfterHead("graph TD\n", Boxes(workflow.nodes[..k], nodes), Boxes(workflow.nodes, nodes),
        Arrows(workflow.connections));
    }
    forall k | 0 <= k <= |workflow.connections|
      ensures "graph TD\n" + Boxes(workflow.nodes, nodes) + Arrows(workflow.connections[..k]) <= Diagram(workflow, nodes)
    {
      ArrowsPrefix(workflow.connections, k);
      PrefixAfterHead("graph TD\n" + Boxes(workflow.nodes, nodes), Arrows(workflow.connections[..k]),
        Arrows(workflow.connections), "");
    }
  }

  /** A prefix stays a prefix behind a common head and before any tail. */
  lemma PrefixAfterHead(head: string, a: string, b: string, tail: string)
    requires a <= b
    ensures head + a <= head + b + tail && head + a <= head + b
  {
    assert (head + b + tail)[..|head + a|] == head + a;
  }

  /** The start index of JavaScript's `array.slice(start)` on an array of length `len`. */
  function SliceStart(len: nat, start: int): (r: nat)
    ensures r <= len
  {
    if start < 0 then (if len + start < 0 then 0 else len + start)
    else if start > len then len else start
  }

  function FindContext(h: seq<Execution.ExecutionContext>, executionId: string): (r: Option<Execution.ExecutionContext>)
    ensures r.None? <==> forall i :: 0 <= i < |h| ==> h[i].executionId != executionId
    ensures r.Some? ==> exists i :: 0 <= i < |h| && h[i] == r.value && r.value.executionId == executionId
                                    && forall j :: 0 <= j < i ==> h[j].executionId != executionId
  {
    if h == [] then None
    else if h[0].executionId == executionId then Some(h[0])
    else
      var rest := FindContext(h[1..], executionId);
      assert forall i :: 1 <= i < |h| ==> h[i] == h[1..][i - 1];
      if rest.Some? then
        var i :| 0 <= i < |h[1..]| && h[1..][i] == rest.value && rest.value.executionId == executionId
                 && forall j :: 0 <= j < i ==> h[1..][j].executionId != executionId;
        assert forall j :: 0 <= j < i + 1 ==> h[j].executionId != executionId by {
          forall j | 0 <= j < i + 1
            ensures h[j].executionId != executionId
          {
            if j > 0 {
              assert h[j] == h[1..][j - 1];
            }
          }
        }
        rest
      else
        rest
  }

  /**
   * `new WorkflowEngine(workflow)`: nodes initialised from the registry,
   * then the workflow validated; either step's error is thrown.
   */
  method Create(workflow: Workflow, registry: NodeRegistry) returns (r: Result<WorkflowEngine, string>)
    ensures var init := InitSpec(workflow.nodes, registry.nodes);
      && (init.Err? ==> r == Err(init.error))
      && (r.Ok? <==> init.Ok? && |workflow.nodes| > 0 && EndpointsKnown(workflow.connections, init.value)
                     && !HasCycle(workflow.connections))
      && (r.Ok? ==> fresh(r.value) && r.value.Valid() && r.value.workflow == workflow
                    && r.value.nodes == init.value && r.value.history == [])
  {
    var engine := new WorkflowEngine(workflow);
    var init := engine.InitializeNodes(registry);
    if init.Err? {
      return Err(init.error);
    }
    var valid := engine.ValidateWorkflow();
    if valid.Err? {
      return Err(valid.error);
    }
    r := Ok(engine);
  }

  /** The history after one push: at most `MaxHistorySize` entries, the newest last. */
  function Bounded(h: seq<Execution.ExecutionContext>): (r: seq<Execution.ExecutionContext>)
    ensures |h| <= MaxHistorySize + 1 ==> |r| <= MaxHistorySize
    ensures |r| == if |h| > MaxHistorySize then |h| - 1 else |h|
    ensures r == h[|h| - |r|..]
  {
    if |h| > MaxHistorySize then h[1..] else h
  }
}
