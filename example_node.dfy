/**
 * The template node of the v3 pipeline
 * (functions/api/nodes-v3/core/ExampleNode/index.ts): upper-cases and
 * prefixes a message as configured, builds an output object, and counts
 * its runs in the execution context. The clock is a parameter.
 */
module ExampleNode {
  import opened Common
  import opened ErrorHandler
  import opened Node
  import Execution

  /** JavaScript's `a + b`: concatenation when either side is a string or an object, else a sum. */
  function Plus(a: Value, b: Value): (r: Value)
    ensures a.Str? && b.Str? ==> r == Str(a.s + b.s)
    ensures a.Num? && b.Num? ==> r == Num(a.n + b.n)
  {
    if a.Str? || a.Arr? || a.Obj? || a.Fn? || b.Str? || b.Arr? || b.Obj? || b.Fn? then
      Str(JsString(a) + JsString(b))
    else if a.Undefined? || b.Undefined? then Undefined
    else Num(ToNumber(a) + ToNumber(b))
  }

  /** `Number(v)` for null, booleans and numbers. */
  function ToNumber(v: Value): int
  {
    match v
    case Num(n) => n
    case Bool(b) => if b then 1 else 0
    case _ => 0
  }

  /**
   * Step 3: `message.toUpperCase()` when `toUpperCase` is set, then
   * `prefix + message` when `prefix` is set; a message without
   * `toUpperCase` throws.
   */
  function Transform(config: map<string, Value>, message: Value): (r: Result<Value, string>)
    ensures r.Err? <==> Truthy(ConfigValue(config, "toUpperCase")) && !message.Str?
    ensures message.Str? && !Truthy(ConfigValue(config, "toUpperCase")) && !Truthy(ConfigValue(config, "prefix")) ==>
      r == Ok(message)
  {
    var upper :=
      if !Truthy(ConfigValue(config, "toUpperCase")) then Ok(message)
      else if message.Str? then Ok(Str(ToUpper(message.s)))
      else if message.Null? || message.Undefined? then Err(PropertyAccessError(message, "toUpperCase"))
      else Err("message.toUpperCase is not a function");
    if upper.Err? then upper
    else if Truthy(ConfigValue(config, "prefix")) then Ok(Plus(ConfigValue(config, "prefix"), upper.value))
    else upper
  }

  /** Upper-casing comes first: a string prefix is kept as it is, and only the message is upper-cased. */
  lemma UppercaseBeforePrefix(config: map<string, Value>, prefix: string, message: string)
    requires Truthy(ConfigValue(config, "toUpperCase")) && ConfigValue(config, "prefix") == Str(prefix) && prefix != ""
    ensures Transform(config, Str(message)) == Ok(Str(prefix + ToUpper(message)))
    ensures var out := Transform(config, Str(message)).value.s;
      out[..|prefix|] == prefix && forall i :: |prefix| <= i < |out| ==> !IsLowerLetter(out[i])
  {
    var out := prefix + ToUpper(message);
    assert forall i :: |prefix| <= i < |out| ==> out[i] == ToUpper(message)[i - |prefix|];
  }

  /** `options && Object.keys(options).length > 0`. */
  predicate HasOwnKeys(v: Value)
  {
    (v.Obj? && |v.fields| > 0) || (v.Arr? && |v.items| > 0) || (v.Str? && |v.s| > 0)
  }

  /** Step 4 and 5: the output object at time `now`. */
  function BuildOutput(config: map<string, Value>, message: Value, options: Value, now: int): (r: Value)
    ensures r.Obj? && !r.isError
    ensures "message" in r.fields && r.fields["message"] == message
    ensures "processed" in r.fields && r.fields["processed"] == Bool(true)
    ensures "timestamp" in r.fields <==> Truthy(ConfigValue(config, "addTimestamp"))
    ensures "timestamp" in r.fields ==> r.fields["timestamp"] == Num(now)
    ensures "options" in r.fields <==> HasOwnKeys(options)
    ensures "options" in r.fields ==> r.fields["options"] == options
    ensures r.fields.Keys <= {"message", "processed", "timestamp", "options"}
  {
    var base := map["message" := message, "processed" := Bool(true)];
    var stamped := if Truthy(ConfigValue(config, "addTimestamp")) then base["timestamp" := Num(now)] else base;
    Obj(false, if HasOwnKeys(options) then stamped["options" := options] else stamped)
  }

  /** `let { message, options = {} } = input`: the default applies only to an undefined `options`. */
  function OptionsOf(input: Value): Value
  {
    var o := Get(input, "options");
    if o.Undefined? then Obj(false, map[]) else o
  }

  /** Step 6's counter: `getData('processCount', 0) + 1`. */
  function NextCount(current: Value): (r: Value)
    ensures current.Num? ==> r == Num(current.n + 1)
  {
    Plus(current, Num(1))
  }

  /**
   * Step 6: `setData('lastProcessedMessage', message)`, then the counter one
   * higher; the first failing `setData` is returned.
   */
  method RecordRun(context: Execution.ExecutionContext, message: Value) returns (r: Result<(), string>)
    modifies context
    ensures context.trace == old(context.trace)
    ensures r.Ok? ==> context.data == old(context.data)["lastProcessedMessage" := message]
                                       ["processCount" := NextCount(old(context.GetData("processCount", Num(0))))]
    ensures r.Ok? ==> context.GetData("processCount", Num(0)) == NextCount(old(context.GetData("processCount", Num(0))))
  {
    ghost var before := context.data;
    ghost var count := context.GetData("processCount", Num(0));
    r := context.SetData("lastProcessedMessage", message);
    if r.Err? {
      return;
    }
    assert context.data == before["lastProcessedMessage" := message];
    assert context.GetData("processCount", Num(0)) == count;
    var next := NextCount(context.GetData("processCount", Num(0)));
    r := context.SetData("processCount", next);
  }

  /**
   * `execute(input, context)` at time `now`, taking `executionTime` ms.
   * Failures of validation, of the transform and of `setData` come back as
   * error results; on success the context holds the processed message and a
   * count one higher.
   */
  method Execute(node: BaseNode, input: Value, context: Execution.ExecutionContext, now: int, executionTime: int)
    returns (r: NodeResult)
    modifies context
    ensures context.trace == old(context.trace)
    ensures !r.success ==> r.outputName == "error" && r.output == Data(Null)
    ensures r.success ==> exists m ::
      Transform(node.config, Get(input, "message")) == Ok(m)
      && r == CreateSuccessResult(node.metadata.id, BuildOutput(node.config, m, OptionsOf(input), now), Some("success"), executionTime)
      && context.data == old(context.data)["lastProcessedMessage" := m]
                           ["processCount" := NextCount(old(context.GetData("processCount", Num(0))))]
    ensures r.success ==> context.GetData("processCount", Num(0)) == NextCount(old(context.GetData("processCount", Num(0))))
    ensures !(input.Null? || input.Undefined?) && Transform(node.config, Get(input, "message")).Err? ==>
      !r.success && context.data == old(context.data)
  {
    var valid := node.ValidateInput(input);
    if valid.Err? {
      return CreateErrorResult(node.metadata.id, Error(valid.error), executionTime);
    }
    if input.Null? || input.Undefined? {
      var which := if input.Null? then "null" else "undefined";
      return CreateErrorResult(node.metadata.id,
        Error("Cannot destructure property 'message' of 'input' as it is " + which + "."), executionTime);
    }
    var message := Transform(node.config, Get(input, "message"));
    if message.Err? {
      return CreateErrorResult(node.metadata.id, Error(message.error), executionTime);
    }
    var output := BuildOutput(node.config, message.value, OptionsOf(input), now);
    var stored := RecordRun(context, message.value);
    if stored.Err? {
      return CreateErrorResult(node.metadata.id, Error(stored.error), executionTime);
    }
    r := CreateSuccessResult(node.metadata.id, output, Some("success"), executionTime);
    assert Transform(node.config, Get(input, "message")) == Ok(message.value);
  }
}
