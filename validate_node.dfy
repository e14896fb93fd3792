/**
 * The request-validation node of the v3 pipeline
 * (functions/api/nodes-v3/core/ValidateNode/index.ts): the same checks as
 * the original first node, with the limit and the allowed values taken
 * from the node's configuration, answered as node results instead of
 * responses. Exceptions raised inside `execute` are caught and become
 * error results.
 */
module ValidateNode {
  import opened Common
  import opened ErrorHandler
  import opened Http
  import opened Node
  import Execution
  import CompanyConfig
  import ValidateRequest

  /** The node's input; `None` stands for an absent `request` or `companyConfig`. */
  datatype ValidateInput = ValidateInput(
    request: Option<Request>, companyId: Value, companyConfig: Option<CompanyConfig.Config>)

  const MissingInputs := "Missing required input: request, companyId, or companyConfig"

  /** `buildCorsHeaders(request, companyConfig)`: the origin chosen by `getAllowedOrigin`. */
  function BuildCorsHeaders(request: Request, config: CompanyConfig.Config): (h: map<string, Value>)
    ensures h.Keys == CorsHeaders(Undefined).Keys
    ensures var o := CompanyConfig.GetAllowedOrigin(config, GetHeader(request, "origin"));
      h["Access-Control-Allow-Origin"] == if o.Some? then Str(o.value) else Undefined
  {
    var o := CompanyConfig.GetAllowedOrigin(config, GetHeader(request, "origin"));
    CorsHeaders(if o.Some? then Str(o.value) else Undefined)
  }

  /** The CORS origin answered is the request's own only when the company allows it. */
  lemma CorsOriginIsAllowed(request: Request, config: CompanyConfig.Config)
    ensures var a := BuildCorsHeaders(request, config)["Access-Control-Allow-Origin"];
      a.Str? && a.s != "" ==> CompanyConfig.IsOriginAllowed(config, Some(a.s))
  {
    CompanyConfig.AnsweredOriginIsAllowed(config, GetHeader(request, "origin"));
  }

  /**
   * `createErrorResponse(error, message, status, corsHeaders)`: a failed
   * result on the `error` output carrying the JSON response.
   */
  function CreateErrorResponse(nodeId: string, error: string, message: string, status: int,
                               cors: map<string, Value>, executionTime: int): (r: NodeResult)
    ensures !r.success && r.outputName == "error" && r.nodeId == nodeId
    ensures r.output == Reply(JsonError(status, cors, error, message))
    ensures r.error == Some(error + ": " + message)
  {
    NodeResult(false, Reply(JsonError(status, cors, error, message)), "error", executionTime, nodeId,
      Some(error + ": " + message))
  }

  /** The answer to OPTIONS: a failed result on the `error` output carrying an empty 204. */
  function OptionsResult(nodeId: string, cors: map<string, Value>, executionTime: int): (r: NodeResult)
    ensures !r.success && r.outputName == "error" && r.error.None?
    ensures r.output == Reply(Response(204, cors, None))
  {
    NodeResult(false, Reply(Response(204, cors, None)), "error", executionTime, nodeId, None)
  }

  /**
   * `Number(s)` for a string that is blank (0) or, once trimmed, an
   * optionally signed run of decimal digits; None stands for NaN and for
   * the other numeric spellings, which the model does not read.
   */
  function StringNumber(s: string): (r: Option<int>)
    ensures Trim(s) == "" ==> r == Some(0)
    ensures r.Some? && Trim(s) != "" ==> ParseInt(Trim(s)) == r
  {
    var t := Trim(s);
    if t == "" then Some(0)
    else
      var u := if t[0] == '-' || t[0] == '+' then t[1..] else t;
      if u != [] && DigitPrefix(u) == |u| then ParseInt(t) else None
  }

  /** `String(n)` has no white space to trim. */
  lemma IntToStringTrimmed(n: int)
    ensures IntToString(n) != [] && Trim(IntToString(n)) == IntToString(n)
  {
    var s := IntToString(n);
    var ds := NatToString(if n < 0 then -n else n);
    assert s == (if n < 0 then "-" + ds else ds);
    var first, last := s[0], s[|s| - 1];
    assert last == ds[|ds| - 1] && IsDigit(last);
    assert first == '-' || IsDigit(first) by {
      if n >= 0 { assert IsDigit(ds[0]); }
    }
    assert !IsJsSpace(first) && !IsJsSpace(last);
  }

  /** A number written out by `String(n)` reads back as `n`. */
  lemma StringNumberOfInt(n: int)
    ensures StringNumber(IntToString(n)) == Some(n)
  {
    var s := IntToString(n);
    IntToStringTrimmed(n);
    var ds := NatToString(if n < 0 then -n else n);
    assert s == (if n < 0 then "-" + ds else ds);
    assert IsDigit(ds[0]);
    assert (if s[0] == '-' || s[0] == '+' then s[1..] else s) == ds;
    DigitPrefixAllDigits(ds);
    ParseIntOfIntToString(n);
  }

  /**
   * `length > limit` with JavaScript's conversion of the limit to a number.
   * An array converts through its string form, the items joined by commas,
   * so `[10]` counts as 10 and `[]` as 0. A limit that converts to NaN
   * (undefined, an object, a function, a non-numeric string or array)
   * never rejects.
   */
  predicate ExceedsLimit(length: nat, limit: Value)
    ensures limit.Undefined? || limit.Obj? || limit.Fn? ==> !ExceedsLimit(length, limit)
    ensures limit.Str? && Trim(limit.s) == "" ==> (ExceedsLimit(length, limit) <==> length > 0)
    ensures limit.Arr? && limit.items == [] ==> (ExceedsLimit(length, limit) <==> length > 0)
    ensures limit.Arr? && |limit.items| == 1 && limit.items[0].Num? ==>
      (ExceedsLimit(length, limit) <==> length > limit.items[0].n)
  {
    match limit
    case Num(k) => length > k
    case Null => length > 0
    case Bool(b) => length > (if b then 1 else 0)
    case Str(s) => StringNumber(s).Some? && length > StringNumber(s).value
    case Arr(items) =>
      var text := JsString(limit);
      assert text == JoinStrings(items);
      if |items| == 1 && items[0].Num? then
        assert JsString(items[0]) == IntToString(items[0].n);
        StringNumberOfInt(items[0].n);
        StringNumber(text).Some? && length > StringNumber(text).value
      else
        StringNumber(text).Some? && length > StringNumber(text).value
    case _ => false
  }

  /** A limit configured as the string "10" counts as the number 10. */
  lemma NumericStringLimit()
    ensures ExceedsLimit(11, Str("10")) && !ExceedsLimit(10, Str("10"))
  {
    assert NatToString(1) == "1";
    assert IntToString(10) == "10";
    StringNumberOfInt(10);
  }

  /** A limit configured as a word is NaN, and no length exceeds it. */
  lemma WordLimitNeverRejects(length: nat)
    ensures !ExceedsLimit(length, Str("ten"))
  {
    WordIsNaN();
  }

  /** `Number("ten")` is NaN. */
  lemma WordIsNaN()
    ensures StringNumber("ten").None?
  {
    var t := "ten";
    WordTrimmed();
    assert t[0] == 't' && DigitPrefix(t) == 0;
  }

  lemma WordTrimmed()
    ensures Trim("ten") == "ten"
  {
    var t := "ten";
    assert t[0] == 't' && t[|t| - 1] == 'n';
    assert !IsJsSpace(t[0]) && !IsJsSpace(t[|t| - 1]);
  }

  /** `list.includes(v)` on a configured list; a missing list or a non-list throws. */
  function Includes(name: string, list: Value, v: Value): (r: Result<bool, string>)
    ensures list.Arr? ==> r == Ok(v in list.items)
    ensures list.Null? || list.Undefined? ==> r == Err(PropertyAccessError(list, "includes"))
  {
    match list
    case Arr(items) => Ok(v in items)
    case Str(s) => Ok(Contains(s, JsString(v)))
    case Null => Err(PropertyAccessError(list, "includes"))
    case Undefined => Err(PropertyAccessError(list, "includes"))
    case _ => Err("this.config." + name + ".includes is not a function")
  }

  /** `items.join(sep)`, null and undefined shown as "". */
  function JoinWith(items: seq<Value>, sep: string): (r: string)
    ensures items == [] ==> r == ""
    ensures |items| == 1 && items[0].Str? ==> r == items[0].s
  {
    if items == [] then ""
    else
      var head := if items[0].Undefined? || items[0].Null? then "" else JsString(items[0]);
      if |items| == 1 then head else head + sep + JoinWith(items[1..], sep)
  }

  /** What the checks decide: go on, answer with a result, or throw a TypeError. */
  datatype Verdict = Pass | Reject(result: NodeResult) | Fail(message: string)

  /** Step 8, 9 or 10: a truthy `field` must be one of the configured values. */
  function CheckMembership(field: string, listName: string, value: Value, list: Value,
                           nodeId: string, cors: map<string, Value>, executionTime: int): (r: Verdict)
    ensures r.Pass? <==> !Truthy(value) || Includes(listName, list, value) == Ok(true)
    ensures r.Reject? ==> list.Arr? && value !in list.items
    ensures r.Reject? ==> r.result == CreateErrorResponse(nodeId, "Invalid request",
      field + " 值不正确，允许的值: " + JoinWith(list.items, ", "), 400, cors, executionTime)
  {
    if !Truthy(value) then Pass
    else
      var inc := Includes(listName, list, value);
      if inc.Err? then Fail(inc.error)
      else if inc.value then Pass
      else if list.Arr? then
        Reject(CreateErrorResponse(nodeId, "Invalid request",
          field + " 值不正确，允许的值: " + JoinWith(list.items, ", "), 400, cors, executionTime))
      else Fail("this.config." + listName + ".join is not a function")
  }

  /** A parsed body passes every check of steps 5 to 10 under `config`. */
  predicate BodyAccepted(config: map<string, Value>, body: Value)
  {
    && !(body.Null? || body.Undefined?)
    && ValidateRequest.MessageOk(Get(body, "message"))
    && !ExceedsLimit(JsLength(Get(body, "message").s), ConfigValue(config, "maxMessageLength"))
    && ValidateRequest.ConversationIdOk(Get(body, "conversationId"))
    && (!Truthy(Get(body, "mode")) || Includes("allowedModes", ConfigValue(config, "allowedModes"), Get(body, "mode")) == Ok(true))
    && (!Truthy(Get(body, "source")) || Includes("allowedSources", ConfigValue(config, "allowedSources"), Get(body, "source")) == Ok(true))
    && (!Truthy(Get(body, "pageType")) || Includes("allowedPageTypes", ConfigValue(config, "allowedPageTypes"), Get(body, "pageType")) == Ok(true))
  }

  /** Steps 5 to 10 on a parsed body, in the order of the source. */
  function CheckBody(config: map<string, Value>, body: Value, nodeId: string,
                     cors: map<string, Value>, executionTime: int): (r: Verdict)
    ensures r.Pass? <==> BodyAccepted(config, body)
    ensures r.Fail? && (body.Null? || body.Undefined?) ==> r.message == PropertyAccessError(body, "message")
    ensures !(body.Null? || body.Undefined?) && !ValidateRequest.MessageOk(Get(body, "message")) ==>
      r == Reject(CreateErrorResponse(nodeId, "Invalid request", "message 字段为必填且不能为空", 400, cors, executionTime))
    ensures r.Reject? ==> (!r.result.success && r.result.outputName == "error"
      && r.result.output.Reply? && r.result.output.response.status == 400)
  {
    if body.Null? || body.Undefined? then Fail(PropertyAccessError(body, "message"))
    else
      var message := Get(body, "message");
      if !ValidateRequest.MessageOk(message) then
        Reject(CreateErrorResponse(nodeId, "Invalid request", "message 字段为必填且不能为空", 400, cors, executionTime))
      else if ExceedsLimit(JsLength(message.s), ConfigValue(config, "maxMessageLength")) then
        Reject(CreateErrorResponse(nodeId, "Invalid request",
          "message 长度不能超过 " + JsString(ConfigValue(config, "maxMessageLength")) + " 字符", 400, cors, executionTime))
      else if !ValidateRequest.ConversationIdOk(Get(body, "conversationId")) then
        Reject(CreateErrorResponse(nodeId, "Invalid request", "conversationId 格式不正确", 400, cors, executionTime))
      else CheckLists(config, body, nodeId, cors, executionTime)
  }

  /** Steps 8 to 10: `mode`, `source` and `pageType` against their configured lists, in that order. */
  function CheckLists(config: map<string, Value>, body: Value, nodeId: string,
                      cors: map<string, Value>, executionTime: int): (r: Verdict)
    ensures r.Pass? <==>
      && (!Truthy(Get(body, "mode")) || Includes("allowedModes", ConfigValue(config, "allowedModes"), Get(body, "mode")) == Ok(true))
      && (!Truthy(Get(body, "source")) || Includes("allowedSources", ConfigValue(config, "allowedSources"), Get(body, "source")) == Ok(true))
      && (!Truthy(Get(body, "pageType")) || Includes("allowedPageTypes", ConfigValue(config, "allowedPageTypes"), Get(body, "pageType")) == Ok(true))
    ensures r.Reject? ==> (!r.result.success && r.result.outputName == "error"
      && r.result.output.Reply? && r.result.output.response.status == 400)
    ensures WellConfigured(config) ==> !r.Fail?
  {
    var mode := CheckMembership("mode", "allowedModes", Get(body, "mode"),
      ConfigValue(config, "allowedModes"), nodeId, cors, executionTime);
    if !mode.Pass? then mode
    else
      var source := CheckMembership("source", "allowedSources", Get(body, "source"),
        ConfigValue(config, "allowedSources"), nodeId, cors, executionTime);
      if !source.Pass? then source
      else CheckMembership("pageType", "allowedPageTypes", Get(body, "pageType"),
        ConfigValue(config, "allowedPageTypes"), nodeId, cors, executionTime)
  }

  /** Steps 2 to 10: OPTIONS first, then content type, JSON, and the body. */
  function CheckRequest(config: map<string, Value>, request: Request, nodeId: string,
                        cors: map<string, Value>, executionTime: int): (r: Verdict)
    ensures request.verb == "OPTIONS" ==> r == Reject(OptionsResult(nodeId, cors, executionTime))
    ensures request.verb != "OPTIONS" && !ValidateRequest.IsJsonContentType(GetHeader(request, "content-type")) ==>
      r == Reject(CreateErrorResponse(nodeId, "Invalid Content-Type", "请求必须使用 application/json", 400, cors, executionTime))
    ensures (request.verb != "OPTIONS" && ValidateRequest.IsJsonContentType(GetHeader(request, "content-type"))
      && request.body.None?) ==>
      r == Reject(CreateErrorResponse(nodeId, "Invalid JSON", "请求体必须是有效的 JSON 格式", 400, cors, executionTime))
    ensures r.Pass? <==> (request.verb != "OPTIONS" && ValidateRequest.IsJsonContentType(GetHeader(request, "content-type"))
      && request.body.Some? && BodyAccepted(config, request.body.value))
    ensures r.Reject? ==> !r.result.success && r.result.outputName == "error"
  {
    if request.verb == "OPTIONS" then Reject(OptionsResult(nodeId, cors, executionTime))
    else if !ValidateRequest.IsJsonContentType(GetHeader(request, "content-type")) then
      Reject(CreateErrorResponse(nodeId, "Invalid Content-Type", "请求必须使用 application/json", 400, cors, executionTime))
    else if request.body.None? then
      Reject(CreateErrorResponse(nodeId, "Invalid JSON", "请求体必须是有效的 JSON 格式", 400, cors, executionTime))
    else CheckBody(config, request.body.value, nodeId, cors, executionTime)
  }

  /** The company configuration as the plain object handed on. */
  function ConfigAsValue(config: CompanyConfig.Config): Value
  {
    Obj(false, map["id" := Str(config.id), "allowedOrigins" := Arr(StrValues(config.allowedOrigins))])
  }

  function StrValues(xs: seq<string>): (r: seq<Value>)
    ensures |r| == |xs| && forall i :: 0 <= i < |xs| ==> r[i] == Str(xs[i])
  {
    if xs == [] then [] else [Str(xs[0])] + StrValues(xs[1..])
  }

  /** The success output `{body, corsHeaders, companyId, companyConfig}`. */
  function SuccessOutput(body: Value, cors: map<string, Value>, companyId: Value, config: CompanyConfig.Config): Value
  {
    Obj(false, map["body" := body, "corsHeaders" := Obj(false, cors), "companyId" := companyId,
                   "companyConfig" := ConfigAsValue(config)])
  }

  /**
   * `execute(input, context)` taking `executionTime` ms. Every failure,
   * thrown or not, comes back as a result: missing inputs and a refused
   * `setData` as error results, the checks' answers as they are. The CORS
   * headers are stored in the context before the OPTIONS check.
   */
  method Execute(node: BaseNode, input: ValidateInput, context: Execution.ExecutionContext, executionTime: int)
    returns (r: NodeResult)
    modifies context
    ensures context.trace == old(context.trace)
    ensures input.request.None? || !Truthy(input.companyId) || input.companyConfig.None? ==>
      r == CreateErrorResult(node.metadata.id, Error(MissingInputs), executionTime) && context.data == old(context.data)
    ensures r.success ==> (input.request.Some? && input.companyConfig.Some? && input.request.value.body.Some?
      && r == CreateSuccessResult(node.metadata.id,
           SuccessOutput(input.request.value.body.value, BuildCorsHeaders(input.request.value, input.companyConfig.value),
             input.companyId, input.companyConfig.value), Some("success"), executionTime))
    ensures !r.success ==> r.outputName == "error"
    ensures input.request.Some? && Truthy(input.companyId) && input.companyConfig.Some? ==>
      var cors := BuildCorsHeaders(input.request.value, input.companyConfig.value);
      var stored := Obj(false, cors);
      var total := context.measure.dataSize(old(context.data)) + context.measure.valueSize(stored);
      if total > context.maxDataSize then
        context.data == old(context.data)
        && r == CreateErrorResult(node.metadata.id, Error("Data size limit exceeded: " + IntToString(total)
                                   + " > " + IntToString(context.maxDataSize)), executionTime)
      else
        context.data == old(context.data)["corsHeaders" := stored]
        && match CheckRequest(node.config, input.request.value, node.metadata.id, cors, executionTime)
           case Pass => r.success
           case Reject(result) => r == result
           case Fail(m) => r == CreateErrorResult(node.metadata.id, Error(m), executionTime)
  {
    if input.request.None? || !Truthy(input.companyId) || input.companyConfig.None? {
      return CreateErrorResult(node.metadata.id, Error(MissingInputs), executionTime);
    }
    var request := input.request.value;
    var cors := BuildCorsHeaders(request, input.companyConfig.value);
    var stored := context.SetData("corsHeaders", Obj(false, cors));
    if stored.Err? {
      return CreateErrorResult(node.metadata.id, Error(stored.error), executionTime);
    }
    var verdict := CheckRequest(node.config, request, node.metadata.id, cors, executionTime);
    match verdict
    case Pass =>
      r := CreateSuccessResult(node.metadata.id,
        SuccessOutput(request.body.value, cors, input.companyId, input.companyConfig.value), Some("success"), executionTime);
    case Reject(result) =>
      r := result;
    case Fail(m) =>
      r := CreateErrorResult(node.metadata.id, Error(m), executionTime);
  }

  /** The three allowed-value lists are configured as arrays. */
  predicate WellConfigured(config: map<string, Value>)
  {
    ConfigValue(config, "allowedModes").Arr? && ConfigValue(config, "allowedSources").Arr?
    && ConfigValue(config, "allowedPageTypes").Arr?
  }

  /** Under a well-formed configuration the only exception left is reading `message` of a null body. */
  lemma WellConfiguredOnlyNullBodyThrows(config: map<string, Value>, request: Request, nodeId: string,
                                         cors: map<string, Value>, t: int)
    requires WellConfigured(config)
    ensures CheckRequest(config, request, nodeId, cors, t).Fail? ==>
      request.body == Some(Null) || request.body == Some(Undefined)
  {
    if request.verb != "OPTIONS" && ValidateRequest.IsJsonContentType(GetHeader(request, "content-type"))
       && request.body.Some? {
      CheckBodyFailsOnlyOnNull(config, request.body.value, nodeId, cors, t);
    }
  }

  /** With list-valued settings, the body checks throw only on a null or undefined body. */
  lemma CheckBodyFailsOnlyOnNull(config: map<string, Value>, body: Value, nodeId: string,
                                 cors: map<string, Value>, t: int)
    requires WellConfigured(config)
    ensures CheckBody(config, body, nodeId, cors, t).Fail? ==> body.Null? || body.Undefined?
  {
    if !(body.Null? || body.Undefined?) {
      MembershipNeverFails("mode", "allowedModes", Get(body, "mode"), ConfigValue(config, "allowedModes"), nodeId, cors, t);
      MembershipNeverFails("source", "allowedSources", Get(body, "source"), ConfigValue(config, "allowedSources"), nodeId, cors, t);
      MembershipNeverFails("pageType", "allowedPageTypes", Get(body, "pageType"), ConfigValue(config, "allowedPageTypes"), nodeId, cors, t);
    }
  }

  /** A membership check against an array never throws. */
  lemma MembershipNeverFails(field: string, listName: string, value: Value, list: Value,
                             nodeId: string, cors: map<string, Value>, t: int)
    requires list.Arr?
    ensures !CheckMembership(field, listName, value, list, nodeId, cors, t).Fail?
  {
  }
}
