/**
 * The base of every pipeline node (functions/api/pipeline-v3/base/Node.ts):
 * node metadata, the configuration merge, input validation, the standard
 * success and error results, and the registry of node classes. Subclasses
 * hold a `BaseNode` with their own metadata and configuration; clock
 * readings (timestamps, execution times) are parameters.
 */
module Node {
  import opened Common
  import opened ErrorHandler
  import opened Http

  datatype NodeInput = NodeInput(name: string, typeName: string, required: bool)

  /** The metadata fields the pipeline reads; `config` is `None` when the metadata has none. */
  datatype NodeMetadata = NodeMetadata(id: string, name: string, icon: string, inputs: seq<NodeInput>, config: Option<map<string, Value>>)

  /** What a node hands on: data, or a finished HTTP response. */
  datatype Payload = Data(value: Value) | Reply(response: Response)

  /** `NodeExecutionResult`; `error` is the message of `error.message` when present. */
  datatype NodeResult = NodeResult(
    success: bool, output: Payload, outputName: string,
    executionTime: int, nodeId: string, error: Option<string>)

  /** `{ ...metadata.config, ...config }`: every key of either, the constructor's value winning. */
  function MergeConfig(base: Option<map<string, Value>>, over: Option<map<string, Value>>): (r: map<string, Value>)
    ensures forall k :: k in r <==> (base.Some? && k in base.value) || (over.Some? && k in over.value)
    ensures forall k :: over.Some? && k in over.value ==> r[k] == over.value[k]
    ensures forall k :: base.Some? && k in base.value && !(over.Some? && k in over.value) ==> r[k] == base.value[k]
  {
    (if base.Some? then base.value else map[]) + (if over.Some? then over.value else map[])
  }

  /** `config[key]`, undefined when absent. */
  function ConfigValue(config: map<string, Value>, key: string): Value
  {
    if key in config then config[key] else Undefined
  }

  /** `input[name]` is undefined or null. */
  predicate IsMissing(input: map<string, Value>, name: string)
  {
    name !in input || input[name].Undefined? || input[name].Null?
  }

  /** The first required input, in declaration order, that is missing. */
  function FirstMissing(inputs: seq<NodeInput>, input: map<string, Value>): (r: Option<string>)
    ensures r.None? <==> forall i :: 0 <= i < |inputs| && inputs[i].required ==> !IsMissing(input, inputs[i].name)
    ensures r.Some? ==> IsMissing(input, r.value)
    ensures r.Some? ==> exists i :: 0 <= i < |inputs| && inputs[i].required && inputs[i].name == r.value
  {
    if inputs == [] then None
    else
      var rest := FirstMissing(inputs[1..], input);
      assert forall i :: 1 <= i < |inputs| ==> inputs[i] == inputs[1..][i - 1];
      if inputs[0].required && IsMissing(input, inputs[0].name) then Some(inputs[0].name) else rest
  }

  function MissingInputMessage(input: string, nodeName: string): string
  {
    "Missing required input: " + input + " (" + nodeName + ")"
  }

  /** `createSuccessResult(output, outputName = 'success', executionTime = 0)`. */
  function CreateSuccessResult(nodeId: string, output: Value, outputName: Option<string>, executionTime: int): (r: NodeResult)
    ensures r.success && r.output == Data(output) && r.error.None? && r.nodeId == nodeId
    ensures r.outputName == (if outputName.Some? then outputName.value else "success")
  {
    NodeResult(true, Data(output), if outputName.Some? then outputName.value else "success", executionTime, nodeId, None)
  }

  /** The message of a thrown value: an Error's own message, otherwise `String(error)`. */
  function ThrownMessage(t: Thrown): string
  {
    match t
    case App(e) => e.message
    case Error(m) => m
    case Other(v) => JsString(v)
  }

  /** `createErrorResult(error, executionTime = 0)`. */
  function CreateErrorResult(nodeId: string, error: Thrown, executionTime: int): (r: NodeResult)
    ensures !r.success && r.output == Data(Null) && r.outputName == "error" && r.nodeId == nodeId
    ensures r.error == Some(ThrownMessage(error))
    ensures error.Error? ==> r.error == Some(error.message)
  {
    NodeResult(false, Data(Null), "error", executionTime, nodeId, Some(ThrownMessage(error)))
  }

  /** The two result builders are told apart by `success` and by the output name. */
  lemma ResultsDistinguishable(nodeId: string, output: Value, executionTime: int, error: Thrown)
    ensures CreateSuccessResult(nodeId, output, None, executionTime).outputName
         != CreateErrorResult(nodeId, error, executionTime).outputName
  {
  }

  class BaseNode {
    const metadata: NodeMetadata
    var config: map<string, Value>
    var verbose: bool

    /** `super(metadata, config)`: the merged configuration; `verbose` is `config.verbose || false`. */
    constructor (metadata: NodeMetadata, config: Option<map<string, Value>>)
      ensures this.metadata == metadata
      ensures this.config == MergeConfig(metadata.config, config)
      ensures verbose == Truthy(ConfigValue(this.config, "verbose"))
    {
      this.metadata := metadata;
      this.config := MergeConfig(metadata.config, config);
      verbose := Truthy(ConfigValue(MergeConfig(metadata.config, config), "verbose"));
    }

    /**
     * `validateInput(input)`: throws for the first required input that is
     * undefined or null; a type mismatch is only logged. A null or undefined
     * `input` throws on the first property read.
     */
    method ValidateInput(input: Value) returns (r: Result<bool, string>)
      ensures (input.Null? || input.Undefined?) && metadata.inputs != [] ==>
        r == Err(PropertyAccessError(input, metadata.inputs[0].name))
      ensures !(input.Null? || input.Undefined?) || metadata.inputs == [] ==>
        var fields := if input.Obj? then input.fields else map[];
        r == (if FirstMissing(metadata.inputs, fields).Some?
              then Err(MissingInputMessage(FirstMissing(metadata.inputs, fields).value, metadata.name))
              else Ok(true))
    {
      if (input.Null? || input.Undefined?) && metadata.inputs != [] {
        return Err(PropertyAccessError(input, metadata.inputs[0].name));
      }
      var fields := if input.Obj? then input.fields else map[];
      var inputs := metadata.inputs;
      var i := 0;
      while i < |inputs|
        invariant 0 <= i <= |inputs|
        invariant FirstMissing(inputs, fields) == FirstMissing(inputs[i..], fields)
      {
        assert inputs[i..][1..] == inputs[i + 1..];
        if inputs[i].required && IsMissing(fields, inputs[i].name) {
          return Err(MissingInputMessage(inputs[i].name, metadata.name));
        }
        i := i + 1;
      }
      r := Ok(true);
    }

    /** `setConfig(key, value)`: exactly that key changes. */
    method SetConfig(key: string, value: Value)
      modifies this
      ensures config == old(config)[key := value]
      ensures forall k :: k != key ==> (k in config <==> k in old(config)) && (k in config ==> config[k] == old(config)[k])
      ensures verbose == old(verbose)
    {
      config := config[key := value];
    }

    /** `setVerbose(enabled)`. */
    method SetVerbose(enabled: bool)
      modifies this
      ensures verbose == enabled && config == old(config)
    {
      verbose := enabled;
    }
  }

  /** A registered node class, known by the metadata of an instance built without configuration. */
  datatype NodeClass = NodeClass(className: string, metadata: NodeMetadata)

  /** `NodeRegistry`'s static map: the ids in insertion order and the class under each. */
  class NodeRegistry {
    var ids: seq<string>
    var nodes: map<string, NodeClass>

    ghost predicate Valid()
      reads this
    {
      Distinct(ids) && forall k :: k in ids <==> k in nodes
    }

    constructor ()
      ensures Valid() && ids == [] && nodes == map[]
    {
      ids := [];
      nodes := map[];
    }

    /** `register(nodeClass)`: keyed by its metadata id; a re-registered id keeps its place. */
    method Register(c: NodeClass)
      requires Valid()
      modifies this
      ensures Valid()
      ensures nodes == old(nodes)[c.metadata.id := c]
      ensures ids == if c.metadata.id in old(nodes) then old(ids) else old(ids) + [c.metadata.id]
    {
      var id := c.metadata.id;
      if id !in nodes {
        ids := ids + [id];
      }
      nodes := nodes[id := c];
    }

    /** `get(nodeId)`. */
    function Get(nodeId: string): (r: Option<NodeClass>)
      reads this
      ensures r.Some? <==> nodeId in nodes
      ensures r.Some? ==> r.value == nodes[nodeId]
    {
      if nodeId in nodes then Some(nodes[nodeId]) else None
    }

    /** `list()`: every registered id once. */
    function List(): (r: seq<string>)
      reads this
      requires Valid()
      ensures Distinct(r) && forall k :: k in r <==> k in nodes
    {
      ids
    }

    /** `clear()`. */
    method Clear()
      modifies this
      ensures Valid() && ids == [] && nodes == map[]
    {
      ids := [];
      nodes := map[];
    }
  }
}
